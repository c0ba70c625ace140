// Api::BlockedPeers: blocking and unblocking a peer, where a reversed request is
// not cancelled and whichever answer comes first settles the callbacks that wait.
// A callback may block and unblock again when it is called.
module BlockedPeers {
  import opened FlatMap

  type PeerId = nat

  datatype Item = Item(id: PeerId, date: int)

  datatype Slice = Unknown | Slice(list: seq<Item>, total: int)

  /** A call of block or of unblock; the callback is optional. */
  datatype Command = ToBlock(peer: PeerId) | ToUnblock(peer: PeerId, done: Passed, force: bool)

  datatype Passed = Nothing | Passed(callback: Callback)

  /** A callback, with the calls that it makes when it is called. */
  datatype Callback = Callback(tag: nat, commands: seq<Command>)

  /** A callback that waits; callbacks are numbered as they are passed in. */
  datatype Waiting = Waiting(number: nat, callback: Callback)

  /** The latest request for a peer: its id, its direction and the callbacks that wait for it. */
  datatype Request = Request(requestId: nat, blocking: bool, callbacks: seq<Waiting>)

  /** What is on the network for a peer. */
  datatype Sent = Sent(peer: PeerId, blocking: bool)

  /** A callback that was called. */
  datatype Call = Call(number: nat, success: bool)

  /** What an answer to a request for a page of the list is for: the cached slice, or a callback of its own. */
  datatype ListRequest = NoRequest | Reloading | Paging(callback: nat)

  type Requests = map<PeerId, Request>

  /** `waitingFor` records the peer of the callbacks that wait in an entry. */
  datatype State = State(
    blocked: set<PeerId>,
    requests: Requests,
    nextId: nat,
    inFlight: map<nat, Sent>,
    slice: Slice,
    listRequest: ListRequest,
    pages: seq<(nat, Slice)>,
    nextCallback: nat,
    waitingFor: map<nat, PeerId>,
    called: seq<Call>)

  const INITIAL := State({}, map[], 1, map[], Unknown, NoRequest, [], 0, map[], [])

  // ---- The cached slice, as functions ----

  function Max(a: int, b: int): int {
    if a < b then b else a
  }

  /** TLToSlice: an answer that is not a slice states no count. */
  function ToSlice(count: int, list: seq<Item>): Slice {
    Slice(list, Max(count, |list|))
  }

  function WithBlocked(slice: Slice, peer: PeerId, now: int): Slice {
    if slice.Unknown? then slice else Slice([Item(peer, now)] + slice.list, slice.total + 1)
  }

  function FindItem(list: seq<Item>, peer: PeerId): (at: nat)
    ensures at <= |list|
    ensures at < |list| ==> list[at].id == peer
    ensures forall i :: 0 <= i < at ==> list[i].id != peer
  {
    if list == [] then 0 else if list[0].id == peer then 0 else 1 + FindItem(list[1..], peer)
  }

  function WithoutItem(list: seq<Item>, peer: PeerId): seq<Item> {
    var at := FindItem(list, peer);
    if at < |list| then list[..at] + list[at + 1..] else list
  }

  function WithUnblocked(slice: Slice, peer: PeerId): Slice {
    if slice.Unknown? then slice
    else
      var list := WithoutItem(slice.list, peer);
      Slice(list, if slice.total > |list| then slice.total - 1 else slice.total)
  }

  // ---- How much is left to call: callbacks that call back still come to an end ----

  function Weight(callback: Callback): nat
    decreases callback
  {
    1 + CommandsWeight(callback.commands)
  }

  function CommandsWeight(commands: seq<Command>): nat
    decreases commands
  {
    if commands == [] then 0 else CommandWeight(commands[0]) + CommandsWeight(commands[1..])
  }

  function CommandWeight(command: Command): (w: nat)
    ensures w > 0
    decreases command
  {
    1 + if command.ToUnblock? && command.done.Passed? then Weight(command.done.callback) else 0
  }

  function WaitingWeight(callbacks: seq<Waiting>): nat {
    if callbacks == [] then 0 else Weight(callbacks[0].callback) + WaitingWeight(callbacks[1..])
  }

  /** The weight of all the callbacks in the entries of some peers. */
  function LoadOf(requests: Requests, peers: set<PeerId>): nat
    requires peers <= requests.Keys
    decreases |peers|
  {
    if peers == {} then 0
    else
      var p := Least(peers);
      WaitingWeight(requests[p].callbacks) + LoadOf(requests, peers - {p})
  }

  function Load(requests: Requests): nat {
    LoadOf(requests, requests.Keys)
  }

  lemma {:induction false} LoadWithout(requests: Requests, peers: set<PeerId>, peer: PeerId)
    requires peers <= requests.Keys && peer in peers
    ensures LoadOf(requests, peers) == WaitingWeight(requests[peer].callbacks) + LoadOf(requests, peers - {peer})
    decreases |peers|
  {
    var p := Least(peers);
    if p != peer {
      LoadWithout(requests, peers - {p}, peer);
      assert peers - {p} - {peer} == peers - {peer} - {p};
      LoadWithout(requests, peers - {peer}, p);
    }
  }

  lemma {:induction false} SameLoad(a: Requests, b: Requests, peers: set<PeerId>)
    requires peers <= a.Keys && peers <= b.Keys && forall p :: p in peers ==> a[p] == b[p]
    ensures LoadOf(a, peers) == LoadOf(b, peers)
    decreases |peers|
  {
    if peers != {} {
      SameLoad(a, b, peers - {Least(peers)});
    }
  }

  /** The load of the entries is that of the others and that of one. */
  lemma LoadSplits(requests: Requests, peer: PeerId)
    requires peer in requests
    ensures Load(requests) == Load(requests - {peer}) + WaitingWeight(requests[peer].callbacks)
  {
    LoadWithout(requests, requests.Keys, peer);
    assert (requests - {peer}).Keys == requests.Keys - {peer};
    SameLoad(requests, requests - {peer}, requests.Keys - {peer});
  }

  lemma LoadAdds(requests: Requests, peer: PeerId, request: Request)
    ensures Load(requests[peer := request])
         == Load(requests - {peer}) + WaitingWeight(request.callbacks)
  {
    LoadSplits(requests[peer := request], peer);
    assert requests[peer := request] - {peer} == requests - {peer};
  }

  lemma {:induction false} WaitingWeightAppend(callbacks: seq<Waiting>, next: Waiting)
    ensures WaitingWeight(callbacks + [next]) == WaitingWeight(callbacks) + Weight(next.callback)
  {
    if callbacks != [] {
      WaitingWeightAppend(callbacks[1..], next);
      assert (callbacks + [next])[1..] == callbacks[1..] + [next];
    }
  }

  // ---- The requests, as functions ----

  function Without(waitingFor: map<nat, PeerId>, peer: PeerId): map<nat, PeerId> {
    map c | c in waitingFor && waitingFor[c] != peer :: waitingFor[c]
  }

  /**
   * What may happen in between: requests are sent and callbacks are passed in and called, and
   * nothing is taken back.
   */
  ghost predicate Follows(s: State, later: State) {
    && s.nextId <= later.nextId && s.nextCallback <= later.nextCallback
    && s.called <= later.called
    && (forall id :: id in s.inFlight && id < s.nextId ==> id in later.inFlight && later.inFlight[id] == s.inFlight[id])
    && later.blocked == s.blocked && later.slice == s.slice
    && later.listRequest == s.listRequest && later.pages == s.pages
  }

  /** The request goes out; if the peer has an entry by now, that stays. */
  function Send(s: State, peer: PeerId, blocking: bool): State {
    s.(requests := if peer in s.requests then s.requests else s.requests[peer := Request(s.nextId, blocking, [])],
       nextId := s.nextId + 1,
       inFlight := s.inFlight[s.nextId := Sent(peer, blocking)])
  }

  /** A callback is put at the end of the entry of the peer. */
  function Store(s: State, peer: PeerId, waiting: Waiting): State
    requires peer in s.requests
  {
    var request := s.requests[peer];
    s.(requests := s.requests[peer := request.(callbacks := request.callbacks + [waiting])],
       waitingFor := s.waitingFor[waiting.number := peer])
  }

  /** A callback that is passed in gets the next number. */
  function Numbered(s: State): State {
    s.(nextCallback := s.nextCallback + 1)
  }

  /** Whether a call goes on: a peer is blocked that is not, or unblocked that is, unless that is forced. */
  predicate GoesOn(s: State, command: Command) {
    match command
    case ToBlock(peer) => peer !in s.blocked
    case ToUnblock(peer, _, force) => force || peer in s.blocked
  }

  /** blockAlreadySent: whether a request in the same direction is the latest one. */
  predicate AlreadySent(s: State, peer: PeerId, blocking: bool) {
    peer in s.requests && s.requests[peer].blocking == blocking
  }

  /** The entry of a peer is taken out; the callbacks of it are now to be called. */
  function Taken(s: State, peer: PeerId): State {
    s.(requests := s.requests - {peer}, waitingFor := Without(s.waitingFor, peer))
  }

  function Called(s: State, number: nat, success: bool): State {
    s.(called := s.called + [Call(number, success)])
  }

  /** A call of block or of unblock. */
  function Exec(s: State, command: Command): (r: State)
    ensures Load(r.requests) < Load(s.requests) + CommandWeight(command) && Follows(s, r)
    decreases Load(s.requests) + CommandWeight(command), 0
  {
    if !GoesOn(s, command) then s
    else
      match command
      case ToBlock(peer) =>
        if AlreadySent(s, peer, true) then s
        else
          var settled := Settle(s, peer, false);
          SendLoads(settled, peer, true);
          Send(settled, peer, true)
      case ToUnblock(peer, done, _) =>
        var numbered := if done.Passed? then Numbered(s) else s;
        var sent := if AlreadySent(s, peer, false) then numbered else Send(Settle(numbered, peer, false), peer, false);
        SendLoads(Settle(numbered, peer, false), peer, false);
        if done.Nothing? then sent
        else
          var waiting := Waiting(s.nextCallback, done.callback);
          StoreLoads(sent, peer, waiting);
          Store(sent, peer, waiting)
  }

  function ExecAll(s: State, commands: seq<Command>): (r: State)
    ensures Load(r.requests) <= Load(s.requests) + CommandsWeight(commands) && Follows(s, r)
    decreases Load(s.requests) + CommandsWeight(commands), 1
  {
    if commands == [] then s else ExecAll(Exec(s, commands[0]), commands[1..])
  }

  /** The callbacks are called one after the other, and each makes its calls. */
  function RunAll(s: State, callbacks: seq<Waiting>, success: bool): (r: State)
    ensures Load(r.requests) <= Load(s.requests) + WaitingWeight(callbacks) && Follows(s, r)
    decreases Load(s.requests) + WaitingWeight(callbacks), 1
  {
    if callbacks == [] then s
    else
      var first := callbacks[0];
      RunAll(ExecAll(Called(s, first.number, success), first.callback.commands), callbacks[1..], success)
  }

  /** The entry of a peer, if there is one, is taken out and its callbacks are called. */
  function Settle(s: State, peer: PeerId, success: bool): (r: State)
    ensures Load(r.requests) <= Load(s.requests) && Follows(s, r)
    decreases Load(s.requests), 2
  {
    if peer !in s.requests then s
    else
      LoadSplits(s.requests, peer);
      RunAll(Taken(s, peer), s.requests[peer].callbacks, success)
  }

  lemma SendLoads(s: State, peer: PeerId, blocking: bool)
    ensures Load(Send(s, peer, blocking).requests) == Load(s.requests)
  {
    if peer !in s.requests {
      LoadAdds(s.requests, peer, Request(s.nextId, blocking, []));
      assert s.requests - {peer} == s.requests;
    }
  }

  lemma StoreLoads(s: State, peer: PeerId, waiting: Waiting)
    requires peer in s.requests
    ensures Load(Store(s, peer, waiting).requests) == Load(s.requests) + Weight(waiting.callback)
  {
    var request := s.requests[peer];
    LoadSplits(s.requests, peer);
    LoadAdds(s.requests, peer, request.(callbacks := request.callbacks + [waiting]));
    WaitingWeightAppend(request.callbacks, waiting);
  }

  function Done(s: State, id: nat, now: int): State
    requires id in s.inFlight
  {
    var sent := s.inFlight[id];
    var rest := s.(inFlight := s.inFlight - {id});
    if sent.blocking then
      Settle(rest.(blocked := s.blocked + {sent.peer}, slice := WithBlocked(s.slice, sent.peer, now)), sent.peer, false)
    else
      Settle(rest.(blocked := s.blocked - {sent.peer}, slice := WithUnblocked(s.slice, sent.peer)), sent.peer, true)
  }

  function Fail(s: State, id: nat): State
    requires id in s.inFlight
  {
    Settle(s.(inFlight := s.inFlight - {id}), s.inFlight[id].peer, false)
  }

  datatype Event =
    | DoCommand(command: Command)
    | DoDone(id: nat, now: int)
    | DoFail(id: nat)
    | DoReload
    | DoRequest(callback: nat)
    | DoListDone(count: int, list: seq<Item>)
    | DoListFail
    | DoUpdate(peer: PeerId, isBlocked: bool)

  function ListDone(s: State, slice: Slice): State {
    var rest := s.(listRequest := NoRequest);
    match s.listRequest
    case NoRequest => s
    case Reloading => rest.(slice := slice)
    case Paging(callback) => rest.(pages := s.pages + [(callback, slice)])
  }

  function Step(s: State, event: Event): State {
    match event
    case DoCommand(command) => Exec(s, command)
    case DoDone(id, now) => if id in s.inFlight then Done(s, id, now) else s
    case DoFail(id) => if id in s.inFlight then Fail(s, id) else s
    case DoReload => if s.listRequest == NoRequest then s.(listRequest := Reloading) else s
    case DoRequest(callback) => if s.listRequest == NoRequest then s.(listRequest := Paging(callback)) else s
    case DoListDone(count, list) => ListDone(s, ToSlice(count, list))
    case DoListFail => s.(listRequest := NoRequest)
    case DoUpdate(peer, isBlocked) => s.(blocked := if isBlocked then s.blocked + {peer} else s.blocked - {peer})
  }

  /** What some events make of a state. */
  function RunFrom(s: State, events: seq<Event>): State
    decreases |events|
  {
    if events == [] then s else RunFrom(Step(s, events[0]), events[1..])
  }

  function Run(events: seq<Event>): State {
    RunFrom(INITIAL, events)
  }

  // ---- What every step keeps ----

  /** The entry of a peer has its own request on the network. */
  ghost predicate EntriesAreSent(requests: Requests, inFlight: map<nat, Sent>, nextId: nat) {
    && (forall id :: id in inFlight ==> 0 < id < nextId)
    && (forall p :: p in requests ==>
         && requests[p].requestId in inFlight
         && inFlight[requests[p].requestId] == Sent(p, requests[p].blocking))
  }

  /** How often a callback is listed. */
  function Listed(callbacks: seq<Waiting>, number: nat): nat {
    if callbacks == [] then 0 else (if callbacks[0].number == number then 1 else 0) + Listed(callbacks[1..], number)
  }

  /** Each waiting callback is in the entry of its peer, once, and nothing else is in an entry. */
  ghost predicate WaitingAreListed(requests: Requests, waitingFor: map<nat, PeerId>) {
    && (forall c :: c in waitingFor ==> waitingFor[c] in requests)
    && (forall p, c: nat :: p in requests ==>
         Listed(requests[p].callbacks, c) == if c in waitingFor && waitingFor[c] == p then 1 else 0)
  }

  function TimesCalled(called: seq<Call>, number: nat): nat {
    if called == [] then 0
    else TimesCalled(called[..|called| - 1], number) + if called[|called| - 1].number == number then 1 else 0
  }

  /** Each callback that was passed in waits, or is at hand and about to wait or to be called, or was called once. */
  ghost predicate OnceEach(waitingFor: map<nat, PeerId>, atHand: set<nat>, called: seq<Call>, nextCallback: nat) {
    && (forall c :: c in waitingFor ==> c < nextCallback && c !in atHand)
    && (forall c :: c in atHand ==> c < nextCallback)
    && (forall c: nat ::
         TimesCalled(called, c) == if c < nextCallback && c !in waitingFor && c !in atHand then 1 else 0)
  }

  /** The total is at least the number of those listed. */
  predicate TotalCovers(slice: Slice) {
    slice.Slice? ==> slice.total >= |slice.list|
  }

  ghost predicate Inv(s: State, atHand: set<nat>) {
    && s.nextId > 0
    && EntriesAreSent(s.requests, s.inFlight, s.nextId)
    && WaitingAreListed(s.requests, s.waitingFor)
    && OnceEach(s.waitingFor, atHand, s.called, s.nextCallback)
    && TotalCovers(s.slice)
  }

  lemma NumberedKeeps(s: State, atHand: set<nat>)
    requires Inv(s, atHand)
    ensures Inv(Numbered(s), atHand + {s.nextCallback})
  {
    hide EntriesAreSent, WaitingAreListed, TotalCovers, TimesCalled;
  }

  lemma CalledKeeps(s: State, atHand: set<nat>, number: nat, success: bool)
    requires Inv(s, atHand) && number in atHand
    ensures Inv(Called(s, number, success), atHand - {number})
  {
    hide EntriesAreSent, WaitingAreListed, TotalCovers;
    forall c: nat
      ensures TimesCalled(s.called + [Call(number, success)], c) ==
        TimesCalled(s.called, c) + if c == number then 1 else 0
    {
      assert (s.called + [Call(number, success)])[..|s.called|] == s.called;
    }
    hide TimesCalled;
  }

  lemma SendKeeps(s: State, atHand: set<nat>, peer: PeerId, blocking: bool)
    requires Inv(s, atHand)
    ensures Inv(Send(s, peer, blocking), atHand) && peer in Send(s, peer, blocking).requests
  {
    hide OnceEach, TotalCovers;
  }

  lemma {:induction false} ListedAppend(callbacks: seq<Waiting>, next: Waiting, number: nat)
    ensures Listed(callbacks + [next], number) == Listed(callbacks, number) + if next.number == number then 1 else 0
  {
    if callbacks != [] {
      ListedAppend(callbacks[1..], next, number);
      assert (callbacks + [next])[1..] == callbacks[1..] + [next];
    }
  }

  lemma StoringLists(s: State, peer: PeerId, waiting: Waiting)
    requires WaitingAreListed(s.requests, s.waitingFor) && peer in s.requests && waiting.number !in s.waitingFor
    ensures WaitingAreListed(Store(s, peer, waiting).requests, Store(s, peer, waiting).waitingFor)
  {
    var s' := Store(s, peer, waiting);
    hide Listed;
    forall p, c: nat | p in s'.requests
      ensures Listed(s'.requests[p].callbacks, c) == if c in s'.waitingFor && s'.waitingFor[c] == p then 1 else 0
    {
      ListedAppend(s.requests[peer].callbacks, waiting, c);
      assert Listed(s.requests[p].callbacks, c) == if c in s.waitingFor && s.waitingFor[c] == p then 1 else 0;
    }
  }

  lemma StoreKeeps(s: State, atHand: set<nat>, peer: PeerId, waiting: Waiting)
    requires Inv(s, atHand) && peer in s.requests && waiting.number in atHand
    ensures Inv(Store(s, peer, waiting), atHand - {waiting.number})
  {
    StoringLists(s, peer, waiting);
    hide WaitingAreListed, TotalCovers, TimesCalled;
  }

  function Numbers(callbacks: seq<Waiting>): set<nat> {
    set waiting | waiting in callbacks :: waiting.number
  }

  ghost predicate Distinct(callbacks: seq<Waiting>) {
    callbacks != [] ==> callbacks[0].number !in Numbers(callbacks[1..]) && Distinct(callbacks[1..])
  }

  lemma {:induction false} ListedAre(callbacks: seq<Waiting>, number: nat)
    ensures number in Numbers(callbacks) <==> Listed(callbacks, number) > 0
  {
    if callbacks != [] {
      ListedAre(callbacks[1..], number);
      NumbersOfFirst(callbacks);
    }
  }

  lemma NumbersOfFirst(callbacks: seq<Waiting>)
    requires callbacks != []
    ensures Numbers(callbacks) == {callbacks[0].number} + Numbers(callbacks[1..])
  {
    assert callbacks == [callbacks[0]] + callbacks[1..];
  }

  lemma {:induction false} ListedOnceAreDistinct(callbacks: seq<Waiting>)
    requires forall c: nat :: Listed(callbacks, c) <= 1
    ensures Distinct(callbacks)
  {
    if callbacks != [] {
      var first, rest := callbacks[0].number, callbacks[1..];
      forall c: nat ensures Listed(rest, c) <= 1 && Listed(callbacks, c) >= Listed(rest, c) {
        assert Listed(callbacks, c) <= 1;
      }
      ListedOnceAreDistinct(rest);
      assert Listed(callbacks, first) == 1 + Listed(rest, first);
      ListedAre(rest, first);
    }
  }

  /** The callbacks of an entry are those that wait for its peer, each once. */
  lemma EntryHolds(requests: Requests, waitingFor: map<nat, PeerId>, peer: PeerId)
    requires WaitingAreListed(requests, waitingFor) && peer in requests
    ensures Distinct(requests[peer].callbacks)
    ensures forall c :: c in Numbers(requests[peer].callbacks) <==> c in waitingFor && waitingFor[c] == peer
  {
    hide Listed, Distinct, Numbers;
    forall c: nat
      ensures Listed(requests[peer].callbacks, c) <= 1
      ensures c in Numbers(requests[peer].callbacks) <==> c in waitingFor && waitingFor[c] == peer
    {
      ListedAre(requests[peer].callbacks, c);
      assert Listed(requests[peer].callbacks, c) == if c in waitingFor && waitingFor[c] == peer then 1 else 0;
    }
    ListedOnceAreDistinct(requests[peer].callbacks);
  }

  lemma TakingLists(requests: Requests, waitingFor: map<nat, PeerId>, peer: PeerId)
    requires WaitingAreListed(requests, waitingFor)
    ensures WaitingAreListed(requests - {peer}, Without(waitingFor, peer))
  {
    hide Listed;
  }

  /** Taking the entry out leaves its callbacks at hand. */
  lemma TakenKeeps(s: State, atHand: set<nat>, peer: PeerId)
    requires Inv(s, atHand) && peer in s.requests
    ensures var callbacks := s.requests[peer].callbacks;
      && Inv(Taken(s, peer), atHand + Numbers(callbacks))
      && Distinct(callbacks) && Numbers(callbacks) !! atHand
  {
    EntryHolds(s.requests, s.waitingFor, peer);
    TakingLists(s.requests, s.waitingFor, peer);
    hide WaitingAreListed, TimesCalled, TotalCovers, Numbers, Distinct;
  }

  lemma {:induction false} ExecKeeps(s: State, atHand: set<nat>, command: Command)
    requires Inv(s, atHand)
    ensures Inv(Exec(s, command), atHand)
    decreases Load(s.requests) + CommandWeight(command), 0
  {
    hide Inv, Load;
    if GoesOn(s, command) {
      match command
      case ToBlock(peer) =>
        if !AlreadySent(s, peer, true) {
          SettleKeeps(s, atHand, peer, false);
          SendKeeps(Settle(s, peer, false), atHand, peer, true);
        }
      case ToUnblock(peer, done, _) =>
        var numbered := if done.Passed? then Numbered(s) else s;
        var holding := if done.Passed? then atHand + {s.nextCallback} else atHand;
        if done.Passed? { NumberedKeeps(s, atHand); }
        NewIsNotAtHand(s, atHand);
        if !AlreadySent(s, peer, false) {
          SettleKeeps(numbered, holding, peer, false);
          SendKeeps(Settle(numbered, peer, false), holding, peer, false);
        }
        if done.Passed? {
          var sent :=
            if AlreadySent(s, peer, false) then numbered else Send(Settle(numbered, peer, false), peer, false);
          StoreKeeps(sent, holding, peer, Waiting(s.nextCallback, done.callback));
          assert holding - {s.nextCallback} == atHand;
        }
    }
  }

  lemma NewIsNotAtHand(s: State, atHand: set<nat>)
    requires Inv(s, atHand)
    ensures s.nextCallback !in atHand
  {
  }

  lemma {:induction false} ExecAllKeeps(s: State, atHand: set<nat>, commands: seq<Command>)
    requires Inv(s, atHand)
    ensures Inv(ExecAll(s, commands), atHand)
    decreases Load(s.requests) + CommandsWeight(commands), 1
  {
    hide Inv, Load;
    if commands != [] {
      ExecKeeps(s, atHand, commands[0]);
      ExecAllKeeps(Exec(s, commands[0]), atHand, commands[1..]);
    }
  }

  lemma {:induction false} RunAllKeeps(s: State, atHand: set<nat>, callbacks: seq<Waiting>, success: bool)
    requires Inv(s, atHand + Numbers(callbacks)) && Distinct(callbacks) && Numbers(callbacks) !! atHand
    ensures Inv(RunAll(s, callbacks, success), atHand)
    decreases Load(s.requests) + WaitingWeight(callbacks), 1
  {
    hide Inv, Load;
    if callbacks == [] {
      assert atHand + Numbers(callbacks) == atHand;
    } else {
      var first, rest := callbacks[0], callbacks[1..];
      NumbersOfFirst(callbacks);
      CalledKeeps(s, atHand + Numbers(callbacks), first.number, success);
      var left := atHand + Numbers(rest);
      assert atHand + Numbers(callbacks) - {first.number} == left;
      ExecAllKeeps(Called(s, first.number, success), left, first.callback.commands);
      RunAllKeeps(ExecAll(Called(s, first.number, success), first.callback.commands), atHand, rest, success);
    }
  }

  lemma {:induction false} SettleKeeps(s: State, atHand: set<nat>, peer: PeerId, success: bool)
    requires Inv(s, atHand)
    ensures Inv(Settle(s, peer, success), atHand)
    decreases Load(s.requests), 2
  {
    hide Inv, Load;
    if peer in s.requests {
      LoadSplits(s.requests, peer);
      TakenKeeps(s, atHand, peer);
      RunAllKeeps(Taken(s, peer), atHand, s.requests[peer].callbacks, success);
    }
  }

  lemma SliceKeeps(slice: Slice, peer: PeerId, now: int)
    requires TotalCovers(slice)
    ensures TotalCovers(WithBlocked(slice, peer, now)) && TotalCovers(WithUnblocked(slice, peer))
  {
  }

  /** The state in which the handler of an answer takes the entry of the peer out. */
  function Answering(s: State, id: nat, blocked: set<PeerId>, slice: Slice): State {
    s.(inFlight := s.inFlight - {id}, blocked := blocked, slice := slice)
  }

  lemma TakenIsNotSent(s: State, id: nat, atHand: set<nat>, peer: PeerId, blocked: set<PeerId>, slice: Slice)
    requires Inv(Taken(s, peer), atHand) && id in s.inFlight && s.inFlight[id].peer == peer && TotalCovers(slice)
    ensures Inv(Taken(Answering(s, id, blocked, slice), peer), atHand)
  {
    hide WaitingAreListed, OnceEach, TotalCovers;
  }

  /** An answered request is off the network; if it was that of its peer's entry, the entry goes too. */
  lemma AnsweredKeeps(s: State, id: nat, success: bool, blocked: set<PeerId>, slice: Slice)
    requires Inv(s, {}) && id in s.inFlight && TotalCovers(slice)
    ensures Inv(Settle(Answering(s, id, blocked, slice), s.inFlight[id].peer, success), {})
  {
    var peer, rest := s.inFlight[id].peer, Answering(s, id, blocked, slice);
    if peer in s.requests {
      var callbacks := s.requests[peer].callbacks;
      TakenKeeps(s, {}, peer);
      TakenIsNotSent(s, id, {} + Numbers(callbacks), peer, blocked, slice);
      hide Inv, Numbers, Distinct;
      RunAllKeeps(Taken(rest, peer), {}, callbacks, success);
    } else {
      hide WaitingAreListed, OnceEach, TotalCovers;
    }
  }

  lemma AnswerKeeps(s: State, id: nat, now: int)
    requires Inv(s, {}) && id in s.inFlight
    ensures Inv(Done(s, id, now), {}) && Inv(Fail(s, id), {})
  {
    var sent := s.inFlight[id];
    SliceKeeps(s.slice, sent.peer, now);
    hide WithBlocked, WithUnblocked, Settle;
    AnsweredKeeps(s, id, false, s.blocked + {sent.peer}, WithBlocked(s.slice, sent.peer, now));
    AnsweredKeeps(s, id, true, s.blocked - {sent.peer}, WithUnblocked(s.slice, sent.peer));
    AnsweredKeeps(s, id, false, s.blocked, s.slice);
    hide Inv;
    assert s.(inFlight := s.inFlight - {id}) == Answering(s, id, s.blocked, s.slice);
  }

  lemma StepKeeps(s: State, event: Event)
    requires Inv(s, {})
    ensures Inv(Step(s, event), {})
  {
    hide EntriesAreSent, WaitingAreListed, OnceEach, Exec, Done, Fail;
    match event
    case DoCommand(command) => ExecKeeps(s, {}, command);
    case DoDone(id, now) => if id in s.inFlight { AnswerKeeps(s, id, now); }
    case DoFail(id) => if id in s.inFlight { AnswerKeeps(s, id, 0); }
    case _ =>
  }

  lemma {:induction false} RunFromKeeps(s: State, events: seq<Event>)
    requires Inv(s, {})
    ensures Inv(RunFrom(s, events), {})
    decreases |events|
  {
    hide Inv, Step;
    if events != [] {
      StepKeeps(s, events[0]);
      RunFromKeeps(Step(s, events[0]), events[1..]);
    }
  }

  lemma EveryRunKeeps(events: seq<Event>)
    ensures Inv(Run(events), {})
  {
    RunFromKeeps(INITIAL, events);
    hide RunFrom;
  }

  // ---- What that comes to ----

  /** In every run the entry of a peer has its own request on the network, though earlier ones are not cancelled. */
  lemma EntryIsOnNetwork(events: seq<Event>, peer: PeerId)
    requires peer in Run(events).requests
    ensures var s := Run(events); var request := s.requests[peer];
      request.requestId in s.inFlight && s.inFlight[request.requestId] == Sent(peer, request.blocking)
  {
    EveryRunKeeps(events);
    hide Run, WaitingAreListed, OnceEach;
  }

  /** No callback is ever called twice, and once nothing is on the network each has been called. */
  lemma EachCallbackOnce(events: seq<Event>, number: nat)
    ensures TimesCalled(Run(events).called, number) <= 1
    ensures Run(events).inFlight == map[] && number < Run(events).nextCallback ==>
      TimesCalled(Run(events).called, number) == 1
  {
    EveryRunKeeps(events);
    hide Run, TimesCalled, Listed;
  }

  /** In every run the total covers the list. */
  lemma TotalCoversList(events: seq<Event>)
    ensures TotalCovers(Run(events).slice)
  {
    EveryRunKeeps(events);
    hide Run, WaitingAreListed, OnceEach, EntriesAreSent;
  }

  /** How many blocked peers there are beyond those listed. */
  function Unlisted(slice: Slice): int
    requires slice.Slice?
  {
    slice.total - |slice.list|
  }

  /** Blocking lists one more; unblocking a listed peer one less, and another peer counts as one that was not listed. */
  lemma UnlistedStay(slice: Slice, peer: PeerId, now: int)
    requires slice.Slice? && TotalCovers(slice)
    ensures Unlisted(WithBlocked(slice, peer, now)) == Unlisted(slice)
    ensures var listed := exists i :: 0 <= i < |slice.list| && slice.list[i].id == peer;
      Unlisted(WithUnblocked(slice, peer)) == if listed then Unlisted(slice) else Max(Unlisted(slice) - 1, 0)
  {
  }

  // ---- Who is blocked, and who is listed ----

  datatype Word = NotSaid | Blocked(blocked: bool)

  /** What an event says of a peer: a request that succeeded, or news from elsewhere. */
  function SaidBy(s: State, event: Event, peer: PeerId): Word {
    match event
    case DoDone(id, _) =>
      if id in s.inFlight && s.inFlight[id].peer == peer then Blocked(s.inFlight[id].blocking) else NotSaid
    case DoUpdate(p, isBlocked) => if p == peer then Blocked(isBlocked) else NotSaid
    case _ => NotSaid
  }

  /** The latest that was said of a peer; nobody is blocked at first. */
  function LatestWord(s: State, events: seq<Event>, peer: PeerId, blocked: bool): bool
    decreases |events|
  {
    if events == [] then blocked
    else
      var word := SaidBy(s, events[0], peer);
      LatestWord(Step(s, events[0]), events[1..], peer, if word.Blocked? then word.blocked else blocked)
  }

  lemma StepBlocks(s: State, event: Event, peer: PeerId)
    ensures var word := SaidBy(s, event, peer);
      peer in Step(s, event).blocked <==> if word.Blocked? then word.blocked else peer in s.blocked
  {
    hide Exec, Settle, WithBlocked, WithUnblocked;
  }

  lemma {:induction false} RunBlocks(s: State, events: seq<Event>, peer: PeerId)
    ensures peer in RunFrom(s, events).blocked <==> LatestWord(s, events, peer, peer in s.blocked)
    decreases |events|
  {
    hide Step, SaidBy;
    if events != [] {
      StepBlocks(s, events[0], peer);
      RunBlocks(Step(s, events[0]), events[1..], peer);
    }
  }

  /**
   * In every run a peer is blocked if and only if the latest request for it that succeeded,
   * or the latest news, says so.
   */
  lemma BlockedIsLatest(events: seq<Event>, peer: PeerId)
    ensures peer in Run(events).blocked <==> LatestWord(INITIAL, events, peer, false)
  {
    RunBlocks(INITIAL, events, peer);
    hide RunFrom, LatestWord;
  }

  /** The list without the first item of a peer, if it has one. */
  ghost predicate FirstItemGone(before: seq<Item>, after: seq<Item>, peer: PeerId) {
    if exists i :: 0 <= i < |before| && before[i].id == peer then
      exists at ::
        && 0 <= at < |before| && before[at].id == peer
        && (forall i :: 0 <= i < at ==> before[i].id != peer)
        && |after| == |before| - 1
        && (forall i :: 0 <= i < at ==> after[i] == before[i])
        && (forall i :: at < i < |before| ==> after[i - 1] == before[i])
    else after == before
  }

  /**
   * A cached list changes with the requests that succeed alone: a blocked peer is put in
   * front with the date, and the first item of an unblocked one goes.
   */
  lemma AnswerChangesList(s: State, event: Event)
    requires s.slice.Slice? && !event.DoListDone?
    ensures var s' := Step(s, event);
      && s'.slice.Slice?
      && if event.DoDone? && event.id in s.inFlight then
           var sent := s.inFlight[event.id];
           if sent.blocking then
             && s'.slice.list != [] && s'.slice.list[0] == Item(sent.peer, event.now)
             && s'.slice.list[1..] == s.slice.list
           else FirstItemGone(s.slice.list, s'.slice.list, sent.peer)
         else s'.slice == s.slice
  {
    hide Exec, Settle;
    if event.DoDone? && event.id in s.inFlight && !s.inFlight[event.id].blocking {
      ItemGoes(s.slice.list, s.inFlight[event.id].peer);
      hide WithoutItem, FirstItemGone;
    }
  }

  lemma ItemGoes(list: seq<Item>, peer: PeerId)
    ensures FirstItemGone(list, WithoutItem(list, peer), peer)
  {
    var at, after := FindItem(list, peer), WithoutItem(list, peer);
    if at < |list| {
      assert forall i :: 0 <= i < at ==> after[i] == list[i];
      assert forall i :: at < i < |list| ==> after[i - 1] == list[i];
    }
  }

  /** A list that was asked for and has come: what was asked for decides who gets it, and it covers its total. */
  lemma ListGoesWhereAsked(s: State, count: int, list: seq<Item>)
    ensures var s' := Step(s, DoListDone(count, list));
      && (s.listRequest == Reloading ==>
           && s'.slice.Slice? && s'.slice.list == list
           && s'.slice.total >= count && s'.slice.total >= |list| && s'.slice.total in {count, |list|}
           && s'.pages == s.pages)
      && (s.listRequest.Paging? ==>
           && s'.slice == s.slice && |s'.pages| == |s.pages| + 1 && s'.pages[..|s.pages|] == s.pages
           && var (callback, page) := s'.pages[|s.pages|];
           && callback == s.listRequest.callback && page.Slice? && page.list == list
           && page.total >= count && page.total >= |list| && page.total in {count, |list|})
      && (s.listRequest == NoRequest ==> s' == s)
      && s'.listRequest == NoRequest
  {
  }

  /** A list is asked for unless one is under way, and then answered or given up once. */
  lemma OneListAtATime(s: State, event: Event)
    ensures var s' := Step(s, event);
      match event
      case DoReload => s'.listRequest == if s.listRequest == NoRequest then Reloading else s.listRequest
      case DoRequest(callback) =>
        s'.listRequest == if s.listRequest == NoRequest then Paging(callback) else s.listRequest
      case DoListDone(_, _) => s'.listRequest == NoRequest
      case DoListFail => s' == s.(listRequest := NoRequest)
      case _ => s'.listRequest == s.listRequest && s'.pages == s.pages
  {
    hide Exec, Settle;
  }

  // ---- What is sent ----

  /** Whether a call sends: it goes on, and the latest request for the peer is not in the same direction. */
  predicate SendsNow(s: State, command: Command) {
    var peer := command.peer;
    && (if command.ToBlock? then peer !in s.blocked else command.force || peer in s.blocked)
    && (peer in s.requests ==> s.requests[peer].blocking != command.ToBlock?)
  }

  /**
   * A call puts a new request in its direction on the network if and only if it sends.  What
   * was on the network stays, and a callback is taken in unless the call does not go on.
   */
  lemma CallSendsIff(s: State, command: Command)
    requires Inv(s, {})
    ensures var s' := Step(s, DoCommand(command));
      && (SendsNow(s, command) <==>
           exists id: nat ::
             id !in s.inFlight && id in s'.inFlight && s'.inFlight[id] == Sent(command.peer, command.ToBlock?))
      && (forall id :: id in s.inFlight ==> id in s'.inFlight && s'.inFlight[id] == s.inFlight[id])
      && (command.ToUnblock? && command.done.Passed? && (command.force || command.peer in s.blocked) ==>
           s.nextCallback < s'.nextCallback
           && (s.nextCallback in s'.waitingFor && s'.waitingFor[s.nextCallback] == command.peer))
      && (command.ToUnblock? && !command.force && command.peer !in s.blocked ==> s' == s)
      && (command.ToBlock? && command.peer in s.blocked ==> s' == s)
  {
    assert forall id :: id in s.inFlight ==> id < s.nextId;
    hide Inv, Settle;
    var s', peer := Exec(s, command), command.peer;
    if GoesOn(s, command) {
      if command.ToBlock? {
        if !AlreadySent(s, peer, true) { SendingIsNew(s, Settle(s, peer, false), peer, true); }
      } else if !AlreadySent(s, peer, false) {
        var numbered := if command.done.Passed? then Numbered(s) else s;
        SendingIsNew(s, Settle(numbered, peer, false), peer, false);
      }
    }
  }

  /** An entry is the one that was there, with more callbacks perhaps, or is for a new request. */
  ghost predicate OnlyNewEntries(s: State, later: State) {
    && s.nextId <= later.nextId
    && forall p :: p in later.requests && later.requests[p].requestId < s.nextId ==>
      && p in s.requests && later.requests[p].requestId == s.requests[p].requestId
  }

  lemma OnlyNewOn(a: State, b: State, c: State)
    requires OnlyNewEntries(a, b) && OnlyNewEntries(b, c)
    ensures OnlyNewEntries(a, c)
  {
  }

  lemma SmallStepsAreNew(s: State, peer: PeerId, blocking: bool, waiting: Waiting, success: bool)
    ensures OnlyNewEntries(s, s) && OnlyNewEntries(s, Numbered(s)) && OnlyNewEntries(s, Send(s, peer, blocking))
    ensures OnlyNewEntries(s, Called(s, waiting.number, success)) && OnlyNewEntries(s, Taken(s, peer))
    ensures peer in s.requests ==> OnlyNewEntries(s, Store(s, peer, waiting))
  {
  }

  lemma {:induction false} ExecIsNew(s: State, command: Command)
    ensures OnlyNewEntries(s, Exec(s, command))
    decreases Load(s.requests) + CommandWeight(command), 0
  {
    hide Load, OnlyNewEntries, Send, Store, Numbered;
    var some := Waiting(s.nextCallback, Callback(0, []));
    SmallStepsAreNew(s, 0, false, some, false);
    if GoesOn(s, command) {
      match command
      case ToBlock(p) => if !AlreadySent(s, p, true) { SettleAndSendIsNew(s, p, true); }
      case ToUnblock(p, done, _) =>
        var numbered := if done.Passed? then Numbered(s) else s;
        var sent := if AlreadySent(s, p, false) then numbered else Send(Settle(numbered, p, false), p, false);
        assert numbered.requests == s.requests by { NumberedHasSame(s); }
        if !AlreadySent(s, p, false) {
          SettleAndSendIsNew(numbered, p, false);
          OnlyNewOn(s, numbered, sent);
        }
        if done.Passed? {
          SmallStepsAreNew(sent, p, false, Waiting(s.nextCallback, done.callback), false);
          SentHasEntry(s, numbered, p);
          OnlyNewOn(s, sent, Exec(s, command));
        }
    }
  }

  lemma NumberedHasSame(s: State)
    ensures Numbered(s).requests == s.requests
  {
  }

  lemma SentHasEntry(s: State, numbered: State, peer: PeerId)
    requires numbered.requests == s.requests
    ensures AlreadySent(s, peer, false) ==> peer in numbered.requests
    ensures peer in Send(Settle(numbered, peer, false), peer, false).requests
  {
  }

  lemma {:induction false} SettleAndSendIsNew(s: State, peer: PeerId, blocking: bool)
    ensures OnlyNewEntries(s, Send(Settle(s, peer, false), peer, blocking))
    decreases Load(s.requests), 3
  {
    hide Load, OnlyNewEntries, Send;
    SettleIsNew(s, peer, false);
    SmallStepsAreNew(Settle(s, peer, false), peer, blocking, Waiting(0, Callback(0, [])), false);
    OnlyNewOn(s, Settle(s, peer, false), Send(Settle(s, peer, false), peer, blocking));
  }

  lemma {:induction false} ExecAllIsNew(s: State, commands: seq<Command>)
    ensures OnlyNewEntries(s, ExecAll(s, commands))
    decreases Load(s.requests) + CommandsWeight(commands), 1
  {
    hide Load, OnlyNewEntries;
    SmallStepsAreNew(s, 0, false, Waiting(0, Callback(0, [])), false);
    if commands != [] {
      ExecIsNew(s, commands[0]);
      ExecAllIsNew(Exec(s, commands[0]), commands[1..]);
      OnlyNewOn(s, Exec(s, commands[0]), ExecAll(s, commands));
    }
  }

  lemma {:induction false} RunAllIsNew(s: State, callbacks: seq<Waiting>, success: bool)
    ensures OnlyNewEntries(s, RunAll(s, callbacks, success))
    decreases Load(s.requests) + WaitingWeight(callbacks), 1
  {
    hide Load, OnlyNewEntries;
    SmallStepsAreNew(s, 0, false, Waiting(0, Callback(0, [])), success);
    if callbacks != [] {
      var first := callbacks[0];
      var called := Called(s, first.number, success);
      var next := ExecAll(called, first.callback.commands);
      SmallStepsAreNew(s, 0, false, first, success);
      ExecAllIsNew(called, first.callback.commands);
      OnlyNewOn(s, called, next);
      RunAllIsNew(next, callbacks[1..], success);
      OnlyNewOn(s, next, RunAll(s, callbacks, success));
    }
  }

  /** Once settled, a peer has an entry only for a new request. */
  lemma {:induction false} SettleIsNew(s: State, peer: PeerId, success: bool)
    ensures OnlyNewEntries(s, Settle(s, peer, success))
    ensures peer in Settle(s, peer, success).requests ==> Settle(s, peer, success).requests[peer].requestId >= s.nextId
    decreases Load(s.requests), 2
  {
    SmallStepsAreNew(s, peer, false, Waiting(0, Callback(0, [])), success);
    if peer in s.requests {
      LoadSplits(s.requests, peer);
      var taken := Taken(s, peer);
      assert peer !in taken.requests && taken.nextId == s.nextId;
      RunAllIsNew(taken, s.requests[peer].callbacks, success);
      OnlyNewOn(s, taken, Settle(s, peer, success));
      hide RunAll, Load;
    }
  }

  /** A call that sends leaves an entry for the peer, which is its own if there was none. */
  lemma SendingMakesEntry(s: State, command: Command)
    requires SendsNow(s, command)
    ensures var peer, s' := command.peer, Step(s, DoCommand(command));
      && peer in s'.requests
      && (peer !in s.requests ==>
           s'.requests[peer].requestId == s.nextId && s'.requests[peer].blocking == command.ToBlock?)
  {
    var peer := command.peer;
    if peer !in s.requests {
      assert Settle(s, peer, false) == s && Settle(Numbered(s), peer, false) == Numbered(s);
    }
    hide RunAll;
  }

  /** An answer of either kind takes out the entry of its peer, which has one then only for a new request. */
  lemma AnswerTakesEntry(s: State, id: nat, now: int)
    requires id in s.inFlight
    ensures var peer, s' := s.inFlight[id].peer, Step(s, DoDone(id, now));
      peer in s'.requests ==> s'.requests[peer].requestId >= s.nextId
    ensures var peer, s' := s.inFlight[id].peer, Step(s, DoFail(id));
      peer in s'.requests ==> s'.requests[peer].requestId >= s.nextId
  {
    hide Settle, WithBlocked, WithUnblocked;
    var sent, rest := s.inFlight[id], s.(inFlight := s.inFlight - {id});
    SettleIsNew(rest, sent.peer, false);
    SettleIsNew(
      rest.(blocked := s.blocked + {sent.peer}, slice := WithBlocked(s.slice, sent.peer, now)), sent.peer, false);
    SettleIsNew(
      rest.(blocked := s.blocked - {sent.peer}, slice := WithUnblocked(s.slice, sent.peer)), sent.peer, true);
    hide OnlyNewEntries;
  }

  lemma SendingIsNew(s: State, later: State, peer: PeerId, blocking: bool)
    requires s.nextId <= later.nextId
    requires forall id :: id in s.inFlight ==>
      id < s.nextId && id in later.inFlight && later.inFlight[id] == s.inFlight[id]
    ensures var sent := Send(later, peer, blocking);
      && (exists id: nat :: id !in s.inFlight && id in sent.inFlight && sent.inFlight[id] == Sent(peer, blocking))
      && (forall id :: id in s.inFlight ==> id in sent.inFlight && sent.inFlight[id] == s.inFlight[id])
  {
    var sent := Send(later, peer, blocking);
    assert later.nextId in sent.inFlight && sent.inFlight[later.nextId] == Sent(peer, blocking);
  }

  // ---- Whose result a callback is told ----

  datatype Answer = Unanswered | Answered(success: bool)

  /** What a callback was told, the first time that it was called. */
  function ToldTo(called: seq<Call>, number: nat): Answer {
    if called == [] then Unanswered
    else if called[0].number == number then Answered(called[0].success)
    else ToldTo(called[1..], number)
  }

  /** The answer to a request of which nothing came before the events. */
  function AnswerTo(events: seq<Event>, id: nat): Answer {
    if events == [] then Unanswered
    else
      match events[0]
      case DoDone(answered, _) => if answered == id then Answered(true) else AnswerTo(events[1..], id)
      case DoFail(answered) => if answered == id then Answered(false) else AnswerTo(events[1..], id)
      case _ => AnswerTo(events[1..], id)
  }

  lemma {:induction false} ToldBefore(called: seq<Call>, more: seq<Call>, number: nat)
    ensures ToldTo(called + more, number)
         == if ToldTo(called, number) != Unanswered then ToldTo(called, number) else ToldTo(more, number)
  {
    if called == [] {
      assert called + more == more;
    } else {
      ToldBefore(called[1..], more, number);
      assert (called + more)[1..] == called[1..] + more;
    }
  }

  /** What a callback was told does not change any more. */
  lemma ToldStays(called: seq<Call>, later: seq<Call>, number: nat)
    requires called <= later && ToldTo(called, number) != Unanswered
    ensures ToldTo(later, number) == ToldTo(called, number)
  {
    assert later == called + later[|called|..];
    ToldBefore(called, later[|called|..], number);
  }

  lemma ToldNext(called: seq<Call>, next: Call, number: nat)
    requires ToldTo(called, number) == Unanswered
    ensures ToldTo(called + [next], number) == if next.number == number then Answered(next.success) else Unanswered
  {
    ToldBefore(called, [next], number);
    assert [next][1..] == [];
  }

  lemma {:induction false} NotCalledNotTold(called: seq<Call>, number: nat)
    requires TimesCalled(called, number) == 0
    ensures ToldTo(called, number) == Unanswered
    decreases |called|
  {
    if called != [] {
      var front, last := called[..|called| - 1], called[|called| - 1];
      NotCalledNotTold(front, number);
      ToldNext(front, last, number);
      assert called == front + [last];
    }
  }

  lemma AtHandIsNotTold(s: State, atHand: set<nat>, number: nat)
    requires Inv(s, atHand) && (number in atHand || number >= s.nextCallback)
    ensures ToldTo(s.called, number) == Unanswered
  {
    hide EntriesAreSent, WaitingAreListed, TotalCovers;
    assert TimesCalled(s.called, number) == 0;
    NotCalledNotTold(s.called, number);
  }

  /** All the callbacks that are called one after the other are told the same, whatever they call in turn. */
  lemma {:induction false} RunAllTells(s: State, atHand: set<nat>, callbacks: seq<Waiting>, success: bool, number: nat)
    requires Inv(s, atHand + Numbers(callbacks)) && Distinct(callbacks) && Numbers(callbacks) !! atHand
    requires number in Numbers(callbacks)
    ensures ToldTo(RunAll(s, callbacks, success).called, number) == Answered(success)
    decreases |callbacks|
  {
    hide Inv, Load;
    assert callbacks != [];
    hide Numbers;
    NumbersOfFirst(callbacks);
    var first, rest := callbacks[0], callbacks[1..];
    var holding, left := atHand + Numbers(callbacks), atHand + Numbers(rest);
    var called := Called(s, first.number, success);
    var next := ExecAll(called, first.callback.commands);
    assert first.number in Numbers(callbacks);
    CalledKeeps(s, holding, first.number, success);
    assert holding - {first.number} == left;
    ExecAllKeeps(called, left, first.callback.commands);
    if number == first.number {
      AtHandIsNotTold(s, holding, number);
      ToldNext(s.called, Call(number, success), number);
      ToldStays(called.called, RunAll(next, rest, success).called, number);
    } else {
      RunAllTells(next, atHand, rest, success, number);
    }
  }

  /** An answer to any request for a peer tells all callbacks in the peer's entry, whosesoever request it is. */
  lemma AnswerTells(s: State, id: nat, now: int, waiting: Waiting)
    requires Inv(s, {}) && id in s.inFlight && s.inFlight[id].peer in s.requests
    requires waiting in s.requests[s.inFlight[id].peer].callbacks
    ensures ToldTo(Done(s, id, now).called, waiting.number) == Answered(!s.inFlight[id].blocking)
    ensures ToldTo(Fail(s, id).called, waiting.number) == Answered(false)
  {
    var sent, number := s.inFlight[id], waiting.number;
    SliceKeeps(s.slice, sent.peer, now);
    var blocked, unblocked := s.blocked + {sent.peer}, s.blocked - {sent.peer};
    SettlingTells(s, id, false, blocked, WithBlocked(s.slice, sent.peer, now), waiting);
    SettlingTells(s, id, true, unblocked, WithUnblocked(s.slice, sent.peer), waiting);
    SettlingTells(s, id, false, s.blocked, s.slice, waiting);
    hide Inv, WithBlocked, WithUnblocked, Settle, ToldTo;
    assert s.(inFlight := s.inFlight - {id}) == Answering(s, id, s.blocked, s.slice);
  }

  lemma SettlingTells(s: State, id: nat, success: bool, blocked: set<PeerId>, slice: Slice, waiting: Waiting)
    requires Inv(s, {}) && id in s.inFlight && s.inFlight[id].peer in s.requests && TotalCovers(slice)
    requires waiting in s.requests[s.inFlight[id].peer].callbacks
    ensures var settled := Settle(Answering(s, id, blocked, slice), s.inFlight[id].peer, success);
      ToldTo(settled.called, waiting.number) == Answered(success)
  {
    var peer := s.inFlight[id].peer;
    var callbacks := s.requests[peer].callbacks;
    assert waiting.number in Numbers(callbacks);
    hide Inv, Numbers, Distinct, ToldTo;
    TakenKeeps(s, {}, peer);
    TakenIsNotSent(s, id, {} + Numbers(callbacks), peer, blocked, slice);
    RunAllTells(Taken(Answering(s, id, blocked, slice), peer), {}, callbacks, success, waiting.number);
  }

  // A call or a callback that never blocks or unblocks a peer, nor hands over a callback that does.

  predicate Avoids(command: Command, peer: PeerId)
    decreases command
  {
    && command.peer != peer
    && (command.ToUnblock? && command.done.Passed? ==> AllAvoid(command.done.callback.commands, peer))
  }

  predicate AllAvoid(commands: seq<Command>, peer: PeerId)
    decreases commands
  {
    commands == [] || (Avoids(commands[0], peer) && AllAvoid(commands[1..], peer))
  }

  /** None of the callbacks is that with the number, and none has to do with the peer. */
  ghost predicate Spared(callbacks: seq<Waiting>, peer: PeerId, number: nat) {
    forall w :: w in callbacks ==> w.number != number && AllAvoid(w.callback.commands, peer)
  }

  /** The same of the entries of all other peers. */
  ghost predicate OthersSpare(s: State, peer: PeerId, number: nat) {
    && number < s.nextCallback
    && forall p :: p in s.requests && p != peer ==> Spared(s.requests[p].callbacks, peer, number)
  }

  /** Nothing has changed for the peer and for the callback. */
  ghost predicate Spares(s: State, later: State, peer: PeerId, number: nat) {
    && (peer in s.requests <==> peer in later.requests)
    && (peer in s.requests ==> later.requests[peer] == s.requests[peer])
    && (forall id :: id in later.inFlight && later.inFlight[id].peer == peer ==> id in s.inFlight)
    && (forall id :: id in later.inFlight && later.inFlight[id].peer == peer ==> s.inFlight[id] == later.inFlight[id])
    && ToldTo(later.called, number) == ToldTo(s.called, number)
    && OthersSpare(later, peer, number)
  }

  lemma SendSpares(s: State, p: PeerId, blocking: bool, peer: PeerId, number: nat)
    requires OthersSpare(s, peer, number) && p != peer
    ensures Spares(s, Send(s, p, blocking), peer, number)
  {
    hide AllAvoid, ToldTo;
  }

  lemma StoreSpares(s: State, p: PeerId, waiting: Waiting, peer: PeerId, number: nat)
    requires OthersSpare(s, peer, number) && p != peer && p in s.requests
    requires waiting.number != number && AllAvoid(waiting.callback.commands, peer)
    ensures Spares(s, Store(s, p, waiting), peer, number)
  {
    hide AllAvoid, ToldTo;
  }

  lemma CalledSpares(s: State, called: nat, success: bool, peer: PeerId, number: nat)
    requires OthersSpare(s, peer, number) && called != number
    ensures Spares(s, Called(s, called, success), peer, number)
  {
    ToldBefore(s.called, [Call(called, success)], number);
    assert ToldTo([Call(called, success)], number) == Unanswered;
    hide AllAvoid, ToldTo;
  }

  lemma SparesOn(a: State, b: State, c: State, peer: PeerId, number: nat)
    requires Spares(a, b, peer, number) && Spares(b, c, peer, number)
    ensures Spares(a, c, peer, number)
  {
    hide OthersSpare, ToldTo;
  }

  lemma {:induction false} ExecSpares(s: State, command: Command, peer: PeerId, number: nat)
    requires OthersSpare(s, peer, number) && Avoids(command, peer)
    ensures Spares(s, Exec(s, command), peer, number)
    decreases Load(s.requests) + CommandWeight(command), 0
  {
    hide Load, Spares, OthersSpare;
    NothingSpares(s, peer, number);
    if GoesOn(s, command) {
      match command
      case ToBlock(p) =>
        if !AlreadySent(s, p, true) {
          SettleAndSendSpares(s, p, true, peer, number);
        }
      case ToUnblock(p, done, _) =>
        var numbered := if done.Passed? then Numbered(s) else s;
        var sent :=
          if AlreadySent(s, p, false) then numbered else Send(Settle(numbered, p, false), p, false);
        NumberedSpares(s, peer, number);
        if !AlreadySent(s, p, false) {
          SettleAndSendSpares(numbered, p, false, peer, number);
          SparesOn(s, numbered, sent, peer, number);
        }
        if done.Passed? {
          SparesHolds(s, sent, peer, number);
          StoreSpares(sent, p, Waiting(s.nextCallback, done.callback), peer, number);
          SparesOn(s, sent, Exec(s, command), peer, number);
        }
    }
  }

  lemma NothingSpares(s: State, peer: PeerId, number: nat)
    requires OthersSpare(s, peer, number)
    ensures Spares(s, s, peer, number) && number != s.nextCallback
  {
  }

  lemma NumberedSpares(s: State, peer: PeerId, number: nat)
    requires OthersSpare(s, peer, number)
    ensures Spares(s, Numbered(s), peer, number) && OthersSpare(Numbered(s), peer, number)
  {
    hide Spared, ToldTo;
  }

  lemma SparesHolds(s: State, later: State, peer: PeerId, number: nat)
    requires Spares(s, later, peer, number)
    ensures OthersSpare(later, peer, number)
  {
  }

  lemma {:induction false} SettleAndSendSpares(s: State, p: PeerId, blocking: bool, peer: PeerId, number: nat)
    requires OthersSpare(s, peer, number) && p != peer
    ensures Spares(s, Send(Settle(s, p, false), p, blocking), peer, number)
    decreases Load(s.requests), 3
  {
    hide Load, Spares, OthersSpare;
    var settled := Settle(s, p, false);
    SettleSpares(s, p, false, peer, number);
    SparesHolds(s, settled, peer, number);
    SendSpares(settled, p, blocking, peer, number);
    SparesOn(s, settled, Send(settled, p, blocking), peer, number);
  }

  lemma {:induction false} ExecAllSpares(s: State, commands: seq<Command>, peer: PeerId, number: nat)
    requires OthersSpare(s, peer, number) && AllAvoid(commands, peer)
    ensures Spares(s, ExecAll(s, commands), peer, number)
    decreases Load(s.requests) + CommandsWeight(commands), 1
  {
    hide Load, Spares, OthersSpare;
    NothingSpares(s, peer, number);
    if commands != [] {
      var next := Exec(s, commands[0]);
      ExecSpares(s, commands[0], peer, number);
      SparesHolds(s, next, peer, number);
      ExecAllSpares(next, commands[1..], peer, number);
      SparesOn(s, next, ExecAll(s, commands), peer, number);
    }
  }

  lemma {:induction false} RunAllSpares(s: State, callbacks: seq<Waiting>, success: bool, peer: PeerId, number: nat)
    requires OthersSpare(s, peer, number) && Spared(callbacks, peer, number)
    ensures Spares(s, RunAll(s, callbacks, success), peer, number)
    decreases Load(s.requests) + WaitingWeight(callbacks), 1
  {
    NothingSpares(s, peer, number);
    hide Load, Spares, OthersSpare;
    if callbacks != [] {
      var first, rest := callbacks[0], callbacks[1..];
      assert first in callbacks && Spared(rest, peer, number);
      var called := Called(s, first.number, success);
      var next := ExecAll(called, first.callback.commands);
      CalledSpares(s, first.number, success, peer, number);
      SparesHolds(s, called, peer, number);
      ExecAllSpares(called, first.callback.commands, peer, number);
      SparesOn(s, called, next, peer, number);
      SparesHolds(s, next, peer, number);
      RunAllSpares(next, rest, success, peer, number);
      SparesOn(s, next, RunAll(s, callbacks, success), peer, number);
    }
  }

  lemma TakenSpares(s: State, p: PeerId, peer: PeerId, number: nat)
    requires OthersSpare(s, peer, number) && p != peer && p in s.requests
    ensures Spares(s, Taken(s, p), peer, number) && Spared(s.requests[p].callbacks, peer, number)
  {
    hide Spared, ToldTo;
  }

  lemma {:induction false} SettleSpares(s: State, p: PeerId, success: bool, peer: PeerId, number: nat)
    requires OthersSpare(s, peer, number) && p != peer
    ensures Spares(s, Settle(s, p, success), peer, number)
    decreases Load(s.requests), 2
  {
    hide Load, Spares, OthersSpare, Spared;
    NothingSpares(s, peer, number);
    if p in s.requests {
      LoadSplits(s.requests, p);
      TakenSpares(s, p, peer, number);
      SparesHolds(s, Taken(s, p), peer, number);
      RunAllSpares(Taken(s, p), s.requests[p].callbacks, success, peer, number);
      SparesOn(s, Taken(s, p), Settle(s, p, success), peer, number);
    }
  }

  /** The entry of a peer holds one callback, and the network just the request that it waits for. */
  ghost predicate Alone(s: State, peer: PeerId, own: nat, number: nat) {
    && OthersSpare(s, peer, number) && own < s.nextId
    && peer in s.requests && s.requests[peer].requestId == own
    && |s.requests[peer].callbacks| == 1 && s.requests[peer].callbacks[0].number == number
    && own in s.inFlight && s.inFlight[own] == Sent(peer, false)
    && (forall id :: id in s.inFlight && s.inFlight[id].peer == peer ==> id == own)
    && ToldTo(s.called, number) == Unanswered
  }

  lemma AloneStays(s: State, later: State, peer: PeerId, own: nat, number: nat)
    requires Alone(s, peer, own, number) && Spares(s, later, peer, number) && Follows(s, later)
    ensures Alone(later, peer, own, number)
  {
    hide OthersSpare, ToldTo;
  }

  predicate EventAvoids(event: Event, peer: PeerId) {
    event.DoCommand? ==> Avoids(event.command, peer)
  }

  predicate Answers(event: Event, id: nat) {
    (event.DoDone? || event.DoFail?) && event.id == id
  }

  lemma AloneIsAnswering(s: State, id: nat, peer: PeerId, own: nat, number: nat, blocked: set<PeerId>, slice: Slice)
    requires Alone(s, peer, own, number) && id in s.inFlight && id != own
    ensures Alone(Answering(s, id, blocked, slice), peer, own, number) && s.inFlight[id].peer != peer
  {
    hide Spared, ToldTo;
  }

  lemma SettlingOthersKeepsAlone(s: State, p: PeerId, success: bool, peer: PeerId, own: nat, number: nat)
    requires Alone(s, peer, own, number) && p != peer
    ensures Alone(Settle(s, p, success), peer, own, number)
  {
    SettleSpares(s, p, success, peer, number);
    AloneStays(s, Settle(s, p, success), peer, own, number);
  }

  /** Until the request is answered nothing changes for it and its callback. */
  lemma StepKeepsAlone(s: State, event: Event, peer: PeerId, own: nat, number: nat)
    requires Alone(s, peer, own, number) && EventAvoids(event, peer) && !Answers(event, own)
    ensures Alone(Step(s, event), peer, own, number)
  {
    match event
    case DoCommand(command) =>
      ExecSpares(s, command, peer, number);
      AloneStays(s, Exec(s, command), peer, own, number);
    case DoDone(id, now) =>
      if id in s.inFlight {
        var sent := s.inFlight[id];
        var blocked, unblocked := s.blocked + {sent.peer}, s.blocked - {sent.peer};
        AloneIsAnswering(s, id, peer, own, number, blocked, WithBlocked(s.slice, sent.peer, now));
        AloneIsAnswering(s, id, peer, own, number, unblocked, WithUnblocked(s.slice, sent.peer));
        hide Alone, Settle, WithBlocked, WithUnblocked;
        if sent.blocking {
          var rest := Answering(s, id, blocked, WithBlocked(s.slice, sent.peer, now));
          SettlingOthersKeepsAlone(rest, sent.peer, false, peer, own, number);
        } else {
          var rest := Answering(s, id, unblocked, WithUnblocked(s.slice, sent.peer));
          SettlingOthersKeepsAlone(rest, sent.peer, true, peer, own, number);
        }
      }
    case DoFail(id) =>
      if id in s.inFlight {
        AloneIsAnswering(s, id, peer, own, number, s.blocked, s.slice);
        hide Alone, Settle;
        var rest := Answering(s, id, s.blocked, s.slice);
        SettlingOthersKeepsAlone(rest, s.inFlight[id].peer, false, peer, own, number);
        assert rest == s.(inFlight := s.inFlight - {id});
      }
    case _ => hide Spared, ToldTo;
  }

  /** Settling an entry of one callback tells it. */
  lemma SettlingTellsOne(s: State, peer: PeerId, success: bool, number: nat)
    requires peer in s.requests && |s.requests[peer].callbacks| == 1 && s.requests[peer].callbacks[0].number == number
    requires ToldTo(s.called, number) == Unanswered
    ensures ToldTo(Settle(s, peer, success).called, number) == Answered(success)
  {
    var waiting := s.requests[peer].callbacks[0];
    var called := Called(Taken(s, peer), number, success);
    assert s.requests[peer].callbacks == [waiting] && [waiting][1..] == [];
    assert Settle(s, peer, success) == RunAll(ExecAll(called, waiting.callback.commands), [], success) by {
      hide ExecAll, ToldTo;
      assert Settle(s, peer, success) == RunAll(Taken(s, peer), [waiting], success);
    }
    ToldNext(s.called, Call(number, success), number);
    ToldStays(called.called, ExecAll(called, waiting.callback.commands).called, number);
  }

  lemma OwnAnswerTells(s: State, event: Event, peer: PeerId, own: nat, number: nat)
    requires Alone(s, peer, own, number) && Answers(event, own)
    ensures ToldTo(Step(s, event).called, number) == Answered(event.DoDone?)
  {
    hide Settle, ToldTo, OthersSpare;
    var sent := s.inFlight[own];
    match event
    case DoDone(id, now) =>
      var rest := Answering(s, own, s.blocked - {peer}, WithUnblocked(s.slice, peer));
      SettlingTellsOne(rest, peer, true, number);
    case DoFail(id) => SettlingTellsOne(s.(inFlight := s.inFlight - {own}), peer, false, number);
    case _ =>
  }

  lemma StepGrows(s: State, event: Event)
    ensures s.called <= Step(s, event).called
  {
    hide Exec, Settle;
  }

  lemma {:induction false} RunGrows(s: State, events: seq<Event>)
    ensures s.called <= RunFrom(s, events).called
    decreases |events|
  {
    hide Step;
    if events != [] {
      StepGrows(s, events[0]);
      RunGrows(Step(s, events[0]), events[1..]);
    }
  }

  /** No event blocks or unblocks the peer, nor hands over a callback that does. */
  ghost predicate EventsAvoid(events: seq<Event>, peer: PeerId) {
    forall i :: 0 <= i < |events| ==> EventAvoids(events[i], peer)
  }

  /** Whatever comes, the callback is told what its request was answered, and when that was answered. */
  lemma {:induction false} ToldAsAnswered(s: State, events: seq<Event>, peer: PeerId, own: nat, number: nat)
    requires Alone(s, peer, own, number) && EventsAvoid(events, peer)
    ensures ToldTo(RunFrom(s, events).called, number) == AnswerTo(events, own)
    decreases |events|
  {
    if events == [] {
    } else {
      var next, rest := Step(s, events[0]), events[1..];
      assert EventAvoids(events[0], peer) && EventsAvoid(rest, peer);
      assert RunFrom(s, events) == RunFrom(next, rest);
      if Answers(events[0], own) {
        OwnAnswerTells(s, events[0], peer, own, number);
        RunGrows(next, rest);
        ToldStays(next.called, RunFrom(next, rest).called, number);
      } else {
        StepKeepsAlone(s, events[0], peer, own, number);
        ToldAsAnswered(next, rest, peer, own, number);
      }
      hide Alone, Step, ToldTo;
    }
  }

  // ---- When a callback is told the result of its own request ----

  /** A call of unblock that sends a request of its own. */
  predicate SendsUnblock(s: State, peer: PeerId, force: bool) {
    (force || peer in s.blocked) && !AlreadySent(s, peer, false)
  }

  /** The id of the request that it sends. */
  function OwnRequest(s: State, peer: PeerId): nat {
    Settle(Numbered(s), peer, false).nextId
  }

  /** No callback that waits blocks or unblocks the peer. */
  ghost predicate CallbacksAvoid(s: State, peer: PeerId) {
    forall p, w :: p in s.requests && w in s.requests[p].callbacks ==> AllAvoid(w.callback.commands, peer)
  }

  /** Whenever the request is answered in the end, the callback was told that answer. */
  ghost predicate ToldTruly(s: State, peer: PeerId, own: nat, number: nat) {
    forall events :: EventsAvoid(events, peer) && AnswerTo(events, own) != Unanswered ==>
      ToldTo(RunFrom(s, events).called, number) == AnswerTo(events, own)
  }

  /** A new number is not that of a callback that waits. */
  lemma NewNumberSpares(s: State, peer: PeerId, p: PeerId)
    requires Inv(s, {}) && CallbacksAvoid(s, peer) && p in s.requests
    ensures Spared(s.requests[p].callbacks, peer, s.nextCallback)
  {
    EntryHolds(s.requests, s.waitingFor, p);
    hide EntriesAreSent, TotalCovers, Listed, TimesCalled, AllAvoid;
    forall w | w in s.requests[p].callbacks ensures w.number != s.nextCallback {
      assert w.number in Numbers(s.requests[p].callbacks);
    }
  }

  /** The state before the request is sent: the peer has no entry, and what was on the network for it still is. */
  lemma ReversalClears(s: State, peer: PeerId)
    requires Inv(s, {}) && CallbacksAvoid(s, peer)
    ensures var numbered, settled := Numbered(s), Settle(Numbered(s), peer, false);
      && peer !in settled.requests && OthersSpare(settled, peer, s.nextCallback)
      && ToldTo(settled.called, s.nextCallback) == Unanswered
      && (forall id :: id in settled.inFlight && settled.inFlight[id].peer == peer <==>
           id in s.inFlight && s.inFlight[id].peer == peer)
      && (forall id :: id in s.inFlight ==> id < settled.nextId)
  {
    var numbered, number := Numbered(s), s.nextCallback;
    AtHandIsNotTold(s, {}, number);
    forall p | p in s.requests ensures Spared(s.requests[p].callbacks, peer, number) {
      NewNumberSpares(s, peer, p);
    }
    assert forall id :: id in s.inFlight ==> id < s.nextId;
    hide Inv, Spared, ToldTo;
    if peer in s.requests {
      var taken, callbacks := Taken(numbered, peer), s.requests[peer].callbacks;
      assert OthersSpare(taken, peer, number);
      RunAllSpares(taken, callbacks, false, peer, number);
      hide OthersSpare, RunAll;
      assert Settle(numbered, peer, false) == RunAll(taken, callbacks, false);
      assert Spares(taken, RunAll(taken, callbacks, false), peer, number);
    }
  }

  /** What a call of unblock that sends makes of the state. */
  function Unblocked(s: State, peer: PeerId, callback: Callback, force: bool): State {
    Exec(s, ToUnblock(peer, Passed(callback), force))
  }

  /** The peer's entry holds the callback, which waits for the request just sent. */
  ghost predicate JustSent(s: State, peer: PeerId, own: nat, number: nat) {
    && OthersSpare(s, peer, number) && own < s.nextId
    && peer in s.requests && s.requests[peer].requestId == own
    && |s.requests[peer].callbacks| == 1 && s.requests[peer].callbacks[0].number == number
    && own in s.inFlight && s.inFlight[own] == Sent(peer, false)
    && ToldTo(s.called, number) == Unanswered
  }

  lemma SendingUnblock(s: State, peer: PeerId, callback: Callback, force: bool)
    requires Inv(s, {}) && SendsUnblock(s, peer, force) && CallbacksAvoid(s, peer)
    ensures var own, sent := OwnRequest(s, peer), Unblocked(s, peer, callback, force);
      && JustSent(sent, peer, own, s.nextCallback)
      && (forall id :: id in sent.inFlight && sent.inFlight[id].peer == peer && id != own <==>
           id in s.inFlight && s.inFlight[id].peer == peer)
  {
    ReversalClears(s, peer);
    hide Inv, CallbacksAvoid, Settle, Spared, ToldTo;
    var settled := Settle(Numbered(s), peer, false);
    assert Unblocked(s, peer, callback, force)
        == Store(Send(settled, peer, false), peer, Waiting(s.nextCallback, callback));
    hide Exec;
  }

  /** If another request for the peer fails first, the callback is told so, although its own succeeds later. */
  lemma OvertakenIsToldWrong(s: State, peer: PeerId, own: nat, number: nat, id: nat)
    requires JustSent(s, peer, own, number) && id in s.inFlight && s.inFlight[id].peer == peer && id != own
    ensures var events := [DoFail(id), DoDone(own, 0)];
      && EventsAvoid(events, peer) && AnswerTo(events, own) == Answered(true)
      && ToldTo(RunFrom(s, events).called, number) == Answered(false)
  {
    var events := [DoFail(id), DoDone(own, 0)];
    assert events[1..] == [DoDone(own, 0)];
    hide OthersSpare, ToldTo, Settle;
    var next := Step(s, events[0]);
    SettlingTellsOne(s.(inFlight := s.inFlight - {id}), peer, false, number);
    RunGrows(next, events[1..]);
    ToldStays(next.called, RunFrom(next, events[1..]).called, number);
    hide Step;
    assert RunFrom(s, events) == RunFrom(next, events[1..]);
  }

  /**
   * As long as nothing else blocks or unblocks the peer, the callback of an
   * unblock is told the answer to the request that this unblock sends, in every
   * continuation, exactly if no earlier request for the peer is on the network.
   */
  lemma OwnAnswerIff(s: State, peer: PeerId, callback: Callback, force: bool)
    requires Inv(s, {}) && SendsUnblock(s, peer, force) && CallbacksAvoid(s, peer)
    ensures ToldTruly(Unblocked(s, peer, callback, force), peer, OwnRequest(s, peer), s.nextCallback)
      <==> forall id :: id in s.inFlight ==> s.inFlight[id].peer != peer
  {
    var own, number, sent := OwnRequest(s, peer), s.nextCallback, Unblocked(s, peer, callback, force);
    SendingUnblock(s, peer, callback, force);
    hide Inv, SendsUnblock, CallbacksAvoid, OwnRequest, Unblocked, OthersSpare, ToldTo, AnswerTo, RunFrom, EventsAvoid;
    if forall id :: id in s.inFlight ==> s.inFlight[id].peer != peer {
      assert Alone(sent, peer, own, number);
      forall events | EventsAvoid(events, peer)
        ensures ToldTo(RunFrom(sent, events).called, number) == AnswerTo(events, own)
      {
        ToldAsAnswered(sent, events, peer, own, number);
      }
    } else {
      var id :| id in s.inFlight && s.inFlight[id].peer == peer;
      OvertakenIsToldWrong(sent, peer, own, number, id);
    }
  }

  /** A peer is blocked, and the block is answered after an unblock was forced. */
  const REVERSED := [
    DoCommand(ToBlock(1)),
    DoCommand(ToUnblock(1, Passed(Callback(9, [])), true)),
    DoDone(1, 0),
    DoDone(2, 0)]

  /** The callback was told that the unblocking failed, and then it succeeded. */
  lemma ReversedIsToldFalse()
    ensures ToldTo(Run(REVERSED).called, 0) == Answered(false) && AnswerTo(REVERSED, 2) == Answered(true)
    ensures 1 !in Run(REVERSED).blocked && Run(REVERSED).inFlight == map[]
  {
    var e := REVERSED;
    var s2 := Step(Step(INITIAL, e[0]), e[1]);
    assert e[1..][1..] == e[2..] && e[2..][1..] == e[3..] && e[3..][1..] == [];
    assert Run(e) == RunFrom(s2, e[2..]) == RunFrom(Step(s2, e[2]), e[3..]) == Step(Step(s2, e[2]), e[3]);
    ReversedSends();
    ReversedIsAnswered(s2);
    assert AnswerTo(e, 2) == AnswerTo(e[3..], 2);
  }

  lemma ReversedSends()
    ensures var s := Step(Step(INITIAL, REVERSED[0]), REVERSED[1]);
      && s.inFlight == map[1 := Sent(1, true), 2 := Sent(1, false)]
      && s.requests == map[1 := Request(2, false, [Waiting(0, Callback(9, []))])]
      && s.called == [] && s.blocked == {} && s.slice == Unknown
  {
    var s := Step(INITIAL, REVERSED[0]);
    assert s.requests == map[1 := Request(1, true, [])] && s.inFlight == map[1 := Sent(1, true)];
    var numbered := Numbered(s);
    assert Settle(numbered, 1, false) == Taken(numbered, 1);
    var sent := Send(Taken(numbered, 1), 1, false);
    var waiting := Waiting(0, Callback(9, []));
    assert sent.requests == map[1 := Request(2, false, [])];
    assert Step(s, REVERSED[1]) == Store(sent, 1, waiting);
    assert Store(sent, 1, waiting).requests[1].callbacks == [waiting];
  }

  lemma ReversedIsAnswered(s: State)
    requires s.inFlight == map[1 := Sent(1, true), 2 := Sent(1, false)]
    requires s.requests == map[1 := Request(2, false, [Waiting(0, Callback(9, []))])]
    requires s.called == [] && s.blocked == {} && s.slice == Unknown
    ensures var after := Step(Step(s, REVERSED[2]), REVERSED[3]);
      ToldTo(after.called, 0) == Answered(false) && 1 !in after.blocked && after.inFlight == map[]
  {
    var waiting := Waiting(0, Callback(9, []));
    var answering := Answering(s, 1, s.blocked + {1}, WithBlocked(s.slice, 1, 0));
    var taken := Taken(answering, 1);
    var called := Called(taken, 0, false);
    assert [waiting][1..] == [] && waiting.callback.commands == [];
    assert ExecAll(called, []) == called && RunAll(called, [], false) == called;
    assert RunAll(taken, [waiting], false) == RunAll(ExecAll(called, []), [], false);
    assert Settle(answering, 1, false) == RunAll(taken, [waiting], false);
    assert Step(s, REVERSED[2]) == Settle(answering, 1, false);
  }

  // ---- The object that the source updates in place ----

  class Peers {
    var blocked: set<PeerId>
    var blockRequests: Requests
    var nextId: nat
    var inFlight: map<nat, Sent>
    var slice: Slice
    var listRequest: ListRequest
    var pages: seq<(nat, Slice)>
    var nextCallback: nat
    ghost var waitingFor: map<nat, PeerId>
    var called: seq<Call>

    ghost function Abs(): State
      reads this
    {
      State(blocked, blockRequests, nextId, inFlight, slice, listRequest, pages, nextCallback, waitingFor, called)
    }

    constructor ()
      ensures Abs() == INITIAL
    {
      blocked, blockRequests, nextId, inFlight := {}, map[], 1, map[];
      slice, listRequest, pages, nextCallback, waitingFor, called := Unknown, NoRequest, [], 0, map[], [];
    }

    /** The request goes out, and emplace leaves an entry that is there by now. */
    method SendRequest(peer: PeerId, blocking: bool)
      modifies `blockRequests, `nextId, `inFlight
      ensures Abs() == Send(old(Abs()), peer, blocking)
    {
      var requestId := nextId;
      nextId := nextId + 1;
      inFlight := inFlight[requestId := Sent(peer, blocking)];
      if peer !in blockRequests {
        blockRequests := blockRequests[peer := Request(requestId, blocking, [])];
      }
    }

    method PushCallback(peer: PeerId, waiting: Waiting)
      requires peer in blockRequests
      modifies `blockRequests, `waitingFor
      ensures Abs() == Store(old(Abs()), peer, waiting)
    {
      var request := blockRequests[peer];
      blockRequests := blockRequests[peer := request.(callbacks := request.callbacks + [waiting])];
      waitingFor := waitingFor[waiting.number := peer];
    }

    /** A callback makes the calls that it has. */
    method Perform(command: Command)
      modifies this
      ensures Abs() == Exec(old(Abs()), command)
      decreases Load(blockRequests) + CommandWeight(command), 0
    {
      match command
      case ToBlock(peer) => BlockPeer(peer);
      case ToUnblock(peer, done, force) => UnblockPeer(peer, done, force);
    }

    method BlockPeer(peer: PeerId)
      modifies this
      ensures Abs() == Exec(old(Abs()), ToBlock(peer))
      decreases Load(blockRequests), 3
    {
      hide Load, Settle;
      if peer in blocked || (peer in blockRequests && blockRequests[peer].blocking) {
        return;
      }
      TakeAndCall(peer, false);
      SendRequest(peer, true);
    }

    method UnblockPeer(peer: PeerId, done: Passed, force: bool)
      modifies this
      ensures Abs() == Exec(old(Abs()), ToUnblock(peer, done, force))
      decreases Load(blockRequests), 3
    {
      hide Load, Settle;
      if !force && peer !in blocked {
        return;
      }
      var number := nextCallback;
      if done.Passed? {
        nextCallback := nextCallback + 1;
      }
      if !(peer in blockRequests && !blockRequests[peer].blocking) {
        TakeAndCall(peer, false);
        SendRequest(peer, false);
      }
      if done.Passed? {
        PushCallback(peer, Waiting(number, done.callback));
      }
    }

    /** Takes the entry of the peer, if there is one, and calls its callbacks, which may block and unblock again. */
    method TakeAndCall(peer: PeerId, success: bool)
      modifies this
      ensures Abs() == Settle(old(Abs()), peer, success)
      decreases Load(blockRequests), 2
    {
      if peer in blockRequests {
        LoadSplits(blockRequests, peer);
        var callbacks := blockRequests[peer].callbacks;
        blockRequests := blockRequests - {peer};
        waitingFor := Without(waitingFor, peer);
        CallAll(callbacks, success);
      }
    }

    method CallAll(callbacks: seq<Waiting>, success: bool)
      modifies this
      ensures Abs() == RunAll(old(Abs()), callbacks, success)
      decreases Load(blockRequests) + WaitingWeight(callbacks), 1
    {
      hide Load, ExecAll;
      for i := 0 to |callbacks|
        invariant RunAll(old(Abs()), callbacks, success) == RunAll(Abs(), callbacks[i..], success)
        invariant Load(blockRequests) + WaitingWeight(callbacks[i..])
          <= old(Load(blockRequests)) + WaitingWeight(callbacks)
      {
        assert callbacks[i..][0] == callbacks[i] && callbacks[i..][1..] == callbacks[i + 1..];
        called := called + [Call(callbacks[i].number, success)];
        PerformAll(callbacks[i].callback.commands);
      }
    }

    method PerformAll(commands: seq<Command>)
      modifies this
      ensures Abs() == ExecAll(old(Abs()), commands)
      decreases Load(blockRequests) + CommandsWeight(commands), 1
    {
      hide Load, Exec;
      for i := 0 to |commands|
        invariant ExecAll(old(Abs()), commands) == ExecAll(Abs(), commands[i..])
        invariant Load(blockRequests) + CommandsWeight(commands[i..])
          <= old(Load(blockRequests)) + CommandsWeight(commands)
      {
        assert commands[i..][0] == commands[i] && commands[i..][1..] == commands[i + 1..];
        Perform(commands[i]);
      }
    }

    method EraseFromSlice(peer: PeerId)
      modifies `slice
      ensures slice == WithUnblocked(old(slice), peer)
    {
      if slice.Unknown? {
        return;
      }
      var list, total := slice.list, slice.total;
      var i := 0;
      while i < |list| && list[i].id != peer
        invariant i <= |list|
        invariant FindItem(list, peer) == i + FindItem(list[i..], peer)
      {
        assert list[i..][1..] == list[i + 1..];
        i := i + 1;
      }
      if i < |list| {
        list := list[..i] + list[i + 1..];
      }
      if total > |list| {
        total := total - 1;
      }
      slice := Slice(list, total);
    }

    method ReceiveDone(id: nat, now: int)
      requires id in inFlight
      modifies this
      ensures Abs() == Done(old(Abs()), id, now)
    {
      hide Settle, WithUnblocked;
      var sent := inFlight[id];
      inFlight := inFlight - {id};
      if sent.blocking {
        blocked := blocked + {sent.peer};
        if slice.Slice? {
          slice := Slice([Item(sent.peer, now)] + slice.list, slice.total + 1);
        }
        TakeAndCall(sent.peer, false);
      } else {
        blocked := blocked - {sent.peer};
        EraseFromSlice(sent.peer);
        TakeAndCall(sent.peer, true);
      }
    }

    method ReceiveFail(id: nat)
      requires id in inFlight
      modifies this
      ensures Abs() == Fail(old(Abs()), id)
    {
      var peer := inFlight[id].peer;
      inFlight := inFlight - {id};
      TakeAndCall(peer, false);
    }

    /** reload's handler and request's: an equal slice is not stored again. */
    method ReceiveList(count: int, list: seq<Item>)
      modifies `slice, `listRequest, `pages
      ensures Abs() == ListDone(old(Abs()), ToSlice(count, list))
    {
      var received := Slice(list, if count < |list| then |list| else count);
      var pending := listRequest;
      listRequest := NoRequest;
      match pending
      case NoRequest =>
      case Reloading =>
        if slice.Unknown? || slice != received {
          slice := received;
        }
      case Paging(callback) => pages := pages + [(callback, received)];
    }
  }
}
