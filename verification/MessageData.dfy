// The batching of message-data requests in ApiWrap: requestMessageData,
// collectMessageIds, resolveMessageDatas and finalizeMessageDataRequest.
module MessageData {
  import opened FlatMap

  type MsgId = nat
  type Callback = nat

  /** Which of the two maps an entry lives in: the common one, or that of a channel. */
  datatype Scope = NotChannel | InChannel(channel: nat)

  datatype Entry = Entry(requestId: nat, callbacks: seq<Callback>)

  type Requests = map<MsgId, Entry>

  /** A callback together with the message it was registered for. */
  datatype Delivery = Delivery(scope: Scope, msgId: MsgId, callback: Callback)

  /** A request on the network: the map it was sent for and the ids it carries. */
  datatype Sent = Sent(scope: Scope, ids: seq<MsgId>)

  /** A call of requestMessageData; `done` holds at most one callback. */
  datatype Call = Call(scope: Scope, msgId: MsgId, done: seq<Callback>)

  /**
   * The two maps, whether the delayed resolve is queued, the requests on the
   * network, and the logs of registered and of fired callbacks.
   */
  datatype State = State(
    common: Requests,
    channels: map<nat, Requests>,
    delayed: bool,
    nextId: nat,
    inFlight: map<nat, Sent>,
    registered: seq<Delivery>,
    fired: seq<Delivery>)
  {
    function Of(scope: Scope): Requests {
      match scope
      case NotChannel => common
      case InChannel(c) => if c in channels then channels[c] else map[]
    }

    function With(scope: Scope, requests: Requests): State {
      match scope
      case NotChannel => this.(common := requests)
      case InChannel(c) => this.(channels := channels[c := requests])
    }

    /** The callbacks still waiting for a message. */
    function Pending(scope: Scope, msgId: MsgId): seq<Callback> {
      if msgId in Of(scope) then Of(scope)[msgId].callbacks else []
    }
  }

  const INITIAL := State(map[], map[], false, 1, map[], [], [])

  // ---- requestMessageData ----

  function EntryFor(requests: Requests, msgId: MsgId): Entry {
    if msgId in requests then requests[msgId] else Entry(0, [])
  }

  function Register(s: State, call: Call): State
  {
    var entry := EntryFor(s.Of(call.scope), call.msgId);
    s.With(call.scope, s.Of(call.scope)[call.msgId := Entry(entry.requestId, entry.callbacks + call.done)])
     .(delayed := s.delayed || entry.requestId == 0,
       registered := s.registered + Deliveries(call.scope, call.msgId, call.done))
  }

  function Deliveries(scope: Scope, msgId: MsgId, callbacks: seq<Callback>): (d: seq<Delivery>)
    ensures |d| == |callbacks|
  {
    seq(|callbacks|, i requires 0 <= i < |callbacks| => Delivery(scope, msgId, callbacks[i]))
  }

  // ---- resolveMessageDatas ----

  /** Among the given keys, in their order, the ids whose request has not been sent yet. */
  function Unsent(requests: Requests, keys: set<MsgId>): (ids: seq<MsgId>)
    requires keys <= requests.Keys
    ensures forall k :: k in ids <==> k in keys && requests[k].requestId == 0
    decreases |keys|
  {
    if keys == {} then []
    else
      var k := Least(keys);
      var rest := Unsent(requests, keys - {k});
      if requests[k].requestId > 0 then rest else [k] + rest
  }

  function UnsentIds(requests: Requests): seq<MsgId> {
    Unsent(requests, requests.Keys)
  }

  function Marked(requests: Requests, requestId: nat): Requests {
    map k | k in requests :: if requests[k].requestId > 0 then requests[k] else requests[k].(requestId := requestId)
  }

  /** Send one request for the unsent ids of a map, if it has any. */
  function SendFor(s: State, scope: Scope): State {
    var requests := s.Of(scope);
    var ids := UnsentIds(requests);
    if ids == [] then s
    else
      s.With(scope, Marked(requests, s.nextId))
       .(nextId := s.nextId + 1, inFlight := s.inFlight[s.nextId := Sent(scope, ids)])
  }

  function ResolveChannel(s: State, channel: nat): State {
    if s.Of(InChannel(channel)) == map[] then s.(channels := s.channels - {channel})
    else SendFor(s, InChannel(channel))
  }

  function ResolveChannels(s: State, keys: set<nat>): State
    decreases |keys|
  {
    if keys == {} then s else ResolveChannels(ResolveChannel(s, Least(keys)), keys - {Least(keys)})
  }

  /** The delayed invocation. */
  function Resolve(s: State): State {
    var s' := SendFor(s.(delayed := false), NotChannel);
    ResolveChannels(s', s'.channels.Keys)
  }

  // ---- finalizeMessageDataRequest ----

  function Remaining(requests: Requests, requestId: nat): Requests {
    map k | k in requests && requests[k].requestId != requestId :: requests[k]
  }

  /** The callbacks of the answered entries among the given keys, in the order of the keys. */
  function Collected(scope: Scope, requests: Requests, requestId: nat, keys: set<MsgId>): seq<Delivery>
    requires keys <= requests.Keys
    decreases |keys|
  {
    if keys == {} then []
    else
      var k := Least(keys);
      var rest := Collected(scope, requests, requestId, keys - {k});
      if requests[k].requestId == requestId then Deliveries(scope, k, requests[k].callbacks) + rest else rest
  }

  function CollectedAll(scope: Scope, requests: Requests, requestId: nat): seq<Delivery> {
    Collected(scope, requests, requestId, requests.Keys)
  }

  /** The maps after finalizing, before any callback runs. */
  function Finalized(s: State, scope: Scope, requestId: nat): State {
    var rest := Remaining(s.Of(scope), requestId);
    match scope
    case NotChannel => s.(common := rest)
    case InChannel(c) =>
      if c !in s.channels then s
      else if rest == map[] then s.(channels := s.channels - {c})
      else s.(channels := s.channels[c := rest])
  }

  // ---- Callbacks, which may call requestMessageData themselves ----

  function RegisterAll(s: State, calls: seq<Call>): State
    decreases |calls|
  {
    if calls == [] then s else RegisterAll(Register(s, calls[0]), calls[1..])
  }

  /** Run callbacks one after another; `reaction` says which calls each of them makes. */
  function Fire(s: State, deliveries: seq<Delivery>, reaction: Callback -> seq<Call>): State
    decreases |deliveries|
  {
    if deliveries == [] then s
    else
      var s' := s.(fired := s.fired + [deliveries[0]]);
      Fire(RegisterAll(s', reaction(deliveries[0].callback)), deliveries[1..], reaction)
  }

  /** The network no longer holds the request. */
  function Received(s: State, requestId: nat): State {
    s.(inFlight := s.inFlight - {requestId})
  }

  /** An answer, successful or not, to a request on the network. */
  function Answer(s: State, requestId: nat, reaction: Callback -> seq<Call>): State
    requires requestId in s.inFlight
  {
    var scope := s.inFlight[requestId].scope;
    var s' := Received(s, requestId);
    Fire(Finalized(s', scope, requestId), CollectedAll(scope, s'.Of(scope), requestId), reaction)
  }

  // ---- What every step keeps ----

  /** The callbacks of one message in a log, in the order of the log. */
  function ForMessage(log: seq<Delivery>, scope: Scope, msgId: MsgId): seq<Callback>
    decreases |log|
  {
    if log == [] then []
    else
      var last := log[|log| - 1];
      ForMessage(log[..|log| - 1], scope, msgId)
      + (if last.scope == scope && last.msgId == msgId then [last.callback] else [])
  }

  predicate Awaits(requests: Requests, m: MsgId, id: nat) {
    m in requests && requests[m].requestId == id
  }

  predicate Carries(inFlight: map<nat, Sent>, id: nat, scope: Scope, m: MsgId) {
    id in inFlight && inFlight[id].scope == scope && m in inFlight[id].ids
  }

  /** Of one map: the entries that name a request are exactly those that it carries on the network. */
  ghost predicate Consistent(requests: Requests, scope: Scope, inFlight: map<nat, Sent>) {
    forall id: nat, m: MsgId :: id > 0 ==> (Awaits(requests, m, id) <==> Carries(inFlight, id, scope, m))
  }

  ghost predicate IdsAreUsed(s: State) {
    0 < s.nextId && forall id :: id in s.inFlight ==> 0 < id < s.nextId && s.inFlight[id].ids != []
  }

  ghost predicate AllSent(requests: Requests) {
    forall m: MsgId :: !Awaits(requests, m, 0)
  }

  /** For each message of a map: what was registered is what fired, then what is about to fire, then what waits. */
  ghost predicate Balanced(requests: Requests, scope: Scope, registered: seq<Delivery>, fired: seq<Delivery>,
      running: seq<Delivery>) {
    forall m: MsgId ::
      ForMessage(registered, scope, m)
      == ForMessage(fired, scope, m) + ForMessage(running, scope, m) + EntryFor(requests, m).callbacks
  }

  ghost predicate ScopeInv(s: State, scope: Scope, running: seq<Delivery>) {
    && Consistent(s.Of(scope), scope, s.inFlight)
    && Balanced(s.Of(scope), scope, s.registered, s.fired, running)
  }

  /** All but the clause about the queued resolve, which a resolve restores only at its end. */
  ghost predicate CoreInv(s: State, running: seq<Delivery>) {
    IdsAreUsed(s) && forall scope :: ScopeInv(s, scope, running)
  }

  /** An entry that was never sent is covered by the queued resolve. */
  ghost predicate Inv(s: State, running: seq<Delivery>) {
    CoreInv(s, running) && (!s.delayed ==> forall scope :: AllSent(s.Of(scope)))
  }

  lemma ForMessageNone(scope: Scope, msgId: MsgId)
    ensures ForMessage([], scope, msgId) == []
  {
  }

  lemma {:induction false} ForMessageAppend(a: seq<Delivery>, b: seq<Delivery>, scope: Scope, msgId: MsgId)
    ensures ForMessage(a + b, scope, msgId) == ForMessage(a, scope, msgId) + ForMessage(b, scope, msgId)
    decreases |b|
  {
    if b == [] {
      assert a + b == a;
    } else {
      assert (a + b)[..|a + b| - 1] == a + b[..|b| - 1];
      ForMessageAppend(a, b[..|b| - 1], scope, msgId);
    }
  }

  lemma {:induction false} ForMessageDeliveries(scope: Scope, msgId: MsgId, callbacks: seq<Callback>, scope': Scope,
      msgId': MsgId)
    ensures ForMessage(Deliveries(scope, msgId, callbacks), scope', msgId')
         == if scope == scope' && msgId == msgId' then callbacks else []
    decreases |callbacks|
  {
    if callbacks != [] {
      var d, n := Deliveries(scope, msgId, callbacks), |callbacks| - 1;
      assert d[..n] == Deliveries(scope, msgId, callbacks[..n]);
      ForMessageDeliveries(scope, msgId, callbacks[..n], scope', msgId');
      assert callbacks[..n] + [callbacks[n]] == callbacks;
    }
  }

  lemma {:induction false} ForMessageCollected(scope: Scope, requests: Requests, id: nat, keys: set<MsgId>,
      scope': Scope, msgId: MsgId)
    requires keys <= requests.Keys
    ensures ForMessage(Collected(scope, requests, id, keys), scope', msgId)
           == if scope == scope' && msgId in keys && requests[msgId].requestId == id
             then requests[msgId].callbacks else []
    decreases |keys|
  {
    hide ForMessage, Deliveries;
    if keys == {} {
      ForMessageNone(scope', msgId);
    } else {
      var k := Least(keys);
      var rest := Collected(scope, requests, id, keys - {k});
      ForMessageAppend(Deliveries(scope, k, requests[k].callbacks), rest, scope', msgId);
      ForMessageDeliveries(scope, k, requests[k].callbacks, scope', msgId);
      ForMessageCollected(scope, requests, id, keys - {k}, scope', msgId);
    }
  }

  // Each operation changes one map; these lemmas say what that does to it and to the others.

  lemma MarkingAt(requests: Requests, scope: Scope, inFlight: map<nat, Sent>, id: nat, ids: seq<MsgId>, i: nat,
      m: MsgId)
    requires Awaits(requests, m, i) <==> Carries(inFlight, i, scope, m)
    requires i > 0 && id > 0 && id !in inFlight && (m in ids <==> Awaits(requests, m, 0))
    ensures Awaits(Marked(requests, id), m, i) <==> Carries(inFlight[id := Sent(scope, ids)], i, scope, m)
  {
  }

  lemma MarkingIsConsistent(requests: Requests, scope: Scope, inFlight: map<nat, Sent>, id: nat)
    requires Consistent(requests, scope, inFlight) && id > 0 && id !in inFlight
    ensures Consistent(Marked(requests, id), scope, inFlight[id := Sent(scope, UnsentIds(requests))])
    ensures AllSent(Marked(requests, id))
  {
    var ids := UnsentIds(requests);
    forall i: nat, m: MsgId | i > 0
      ensures Awaits(Marked(requests, id), m, i) <==> Carries(inFlight[id := Sent(scope, ids)], i, scope, m)
    {
      hide UnsentIds, Marked, Carries, Awaits;
      UnsentIdsAre(requests, m);
      MarkingAt(requests, scope, inFlight, id, ids, i, m);
    }
    assert AllSent(Marked(requests, id)) by {
      hide UnsentIds, Carries;
    }
    hide UnsentIds, Marked, Carries, Awaits;
  }

  lemma UnsentIdsAre(requests: Requests, m: MsgId)
    ensures m in UnsentIds(requests) <==> Awaits(requests, m, 0)
  {
  }

  lemma NoUnsentIds(requests: Requests)
    requires UnsentIds(requests) == []
    ensures AllSent(requests)
  {
    forall m: MsgId ensures !Awaits(requests, m, 0) {
      UnsentIdsAre(requests, m);
    }
  }

  lemma RemainingIsConsistent(requests: Requests, scope: Scope, inFlight: map<nat, Sent>, id: nat)
    requires Consistent(requests, scope, inFlight) && id in inFlight
    ensures inFlight[id].scope == scope ==> Consistent(Remaining(requests, id), scope, inFlight - {id})
    ensures inFlight[id].scope != scope ==> Consistent(requests, scope, inFlight - {id})
  {
    forall i: nat, m: MsgId | i > 0
      ensures inFlight[id].scope == scope
        ==> (Awaits(Remaining(requests, id), m, i) <==> Carries(inFlight - {id}, i, scope, m))
      ensures inFlight[id].scope != scope ==> (Awaits(requests, m, i) <==> Carries(inFlight - {id}, i, scope, m))
    {
      assert Awaits(requests, m, i) <==> Carries(inFlight, i, scope, m);
    }
  }

  lemma RemainingIsBalanced(requests: Requests, scope: Scope, id: nat, registered: seq<Delivery>, fired: seq<Delivery>)
    requires Balanced(requests, scope, registered, fired, [])
    ensures Balanced(Remaining(requests, id), scope, registered, fired, CollectedAll(scope, requests, id))
  {
    hide ForMessage, EntryFor, CollectedAll;
    forall m: MsgId
      ensures ForMessage(registered, scope, m)
           == ForMessage(fired, scope, m) + ForMessage(CollectedAll(scope, requests, id), scope, m)
              + EntryFor(Remaining(requests, id), m).callbacks
    {
      CollectedOrRemaining(requests, scope, id, m);
      ForMessageNone(scope, m);
      assert ForMessage(registered, scope, m) == ForMessage(fired, scope, m) + [] + EntryFor(requests, m).callbacks;
    }
  }

  lemma CollectedOrRemaining(requests: Requests, scope: Scope, id: nat, m: MsgId)
    ensures var collected := ForMessage(CollectedAll(scope, requests, id), scope, m);
      var kept := EntryFor(Remaining(requests, id), m).callbacks;
      (collected == [] && kept == EntryFor(requests, m).callbacks)
        || (collected == EntryFor(requests, m).callbacks && kept == [])
  {
    hide ForMessage;
    ForMessageCollected(scope, requests, id, requests.Keys, scope, m);
  }

  lemma OthersStayBalanced(requests: Requests, other: Scope, scope: Scope, answered: Requests, id: nat,
      registered: seq<Delivery>, fired: seq<Delivery>)
    requires Balanced(requests, other, registered, fired, []) && other != scope
    ensures Balanced(requests, other, registered, fired, CollectedAll(scope, answered, id))
  {
    hide ForMessage;
    forall m: MsgId
      ensures ForMessage(registered, other, m)
           == ForMessage(fired, other, m) + ForMessage(CollectedAll(scope, answered, id), other, m)
             + EntryFor(requests, m).callbacks
    {
      ForMessageCollected(scope, answered, id, answered.Keys, other, m);
      ForMessageNone(other, m);
    }
  }

  lemma RegisteringAppends(s: State, call: Call, scope: Scope, m: MsgId)
    ensures EntryFor(Register(s, call).Of(scope), m).callbacks
         == EntryFor(s.Of(scope), m).callbacks + if scope == call.scope && m == call.msgId then call.done else []
  {
    RegisterOf(s, call, scope);
    hide State.Of, State.With;
  }

  lemma RegisteringIsBalanced(s: State, call: Call, running: seq<Delivery>, scope: Scope)
    requires Balanced(s.Of(scope), scope, s.registered, s.fired, running)
    ensures Balanced(Register(s, call).Of(scope), scope, Register(s, call).registered, s.fired, running)
  {
    hide ForMessage, EntryFor, State.Of, State.With;
    var s' := Register(s, call);
    var changed := s'.Of(scope);
    forall m: MsgId
      ensures ForMessage(s'.registered, scope, m)
           == ForMessage(s.fired, scope, m) + ForMessage(running, scope, m) + EntryFor(changed, m).callbacks
    {
      ForMessageAppend(s.registered, Deliveries(call.scope, call.msgId, call.done), scope, m);
      ForMessageDeliveries(call.scope, call.msgId, call.done, scope, m);
      RegisteringAppends(s, call, scope, m);
    }
  }

  lemma RegisterOf(s: State, call: Call, scope: Scope)
    ensures var entry := EntryFor(s.Of(call.scope), call.msgId);
      Register(s, call).Of(scope)
      == if scope == call.scope then s.Of(scope)[call.msgId := Entry(entry.requestId, entry.callbacks + call.done)]
        else s.Of(scope)
  {
  }

  lemma RegisterKeeps(s: State, call: Call, running: seq<Delivery>)
    requires Inv(s, running)
    ensures Inv(Register(s, call), running)
  {
    var s' := Register(s, call);
    forall scope ensures ScopeInv(s', scope, running) && (!s'.delayed ==> AllSent(s'.Of(scope))) {
      assert ScopeInv(s, scope, running);
      RegisteringIsBalanced(s, call, running, scope);
      RegisteringIsConsistent(s, call, scope);
      hide Balanced, Consistent, Register;
    }
  }

  lemma RegisteringIsConsistent(s: State, call: Call, scope: Scope)
    requires Consistent(s.Of(scope), scope, s.inFlight)
    ensures Consistent(Register(s, call).Of(scope), scope, Register(s, call).inFlight)
    ensures !Register(s, call).delayed && AllSent(s.Of(scope)) ==> AllSent(Register(s, call).Of(scope))
  {
    RegisterOf(s, call, scope);
    var s', entry := Register(s, call), EntryFor(s.Of(call.scope), call.msgId);
    assert s'.inFlight == s.inFlight && (!s'.delayed ==> entry.requestId > 0);
    hide State.Of, State.With, Register, Carries;
    if scope == call.scope {
      AddingIsConsistent(s.Of(scope), call, scope, s.inFlight);
    }
  }

  lemma AddingIsConsistent(requests: Requests, call: Call, scope: Scope, inFlight: map<nat, Sent>)
    requires Consistent(requests, scope, inFlight)
    ensures var entry := EntryFor(requests, call.msgId);
      var changed := requests[call.msgId := Entry(entry.requestId, entry.callbacks + call.done)];
      && Consistent(changed, scope, inFlight)
      && (AllSent(requests) && entry.requestId > 0 ==> AllSent(changed))
  {
    hide Carries;
    var entry := EntryFor(requests, call.msgId);
    var changed := requests[call.msgId := Entry(entry.requestId, entry.callbacks + call.done)];
    forall m: MsgId, i: nat
      ensures i > 0 || entry.requestId > 0 ==> (Awaits(changed, m, i) <==> Awaits(requests, m, i))
    {
    }
  }

  lemma OfWith(s: State, scope: Scope, requests: Requests, other: Scope)
    ensures s.With(scope, requests).Of(other) == if other == scope then requests else s.Of(other)
  {
  }

  lemma SendForOf(s: State, scope: Scope, other: Scope)
    ensures SendFor(s, scope).Of(other)
         == if other == scope && UnsentIds(s.Of(scope)) != [] then Marked(s.Of(scope), s.nextId) else s.Of(other)
  {
    OfWith(s, scope, Marked(s.Of(scope), s.nextId), other);
    hide UnsentIds, Marked;
  }

  lemma SendForRest(s: State, scope: Scope)
    ensures var s', ids := SendFor(s, scope), UnsentIds(s.Of(scope));
      && s'.registered == s.registered && s'.fired == s.fired && s'.delayed == s.delayed
      && (if ids == [] then s' == s
          else s'.nextId == s.nextId + 1 && s'.inFlight == s.inFlight[s.nextId := Sent(scope, ids)])
  {
  }

  lemma MarkingIsBalanced(requests: Requests, id: nat, scope: Scope, registered: seq<Delivery>, fired: seq<Delivery>,
      running: seq<Delivery>)
    requires Balanced(requests, scope, registered, fired, running)
    ensures Balanced(Marked(requests, id), scope, registered, fired, running)
  {
    hide ForMessage;
    assert forall m: MsgId :: EntryFor(Marked(requests, id), m).callbacks == EntryFor(requests, m).callbacks;
  }

  lemma OthersStayConsistent(requests: Requests, other: Scope, inFlight: map<nat, Sent>, id: nat, sent: Sent)
    requires Consistent(requests, other, inFlight) && id !in inFlight && sent.scope != other
    ensures Consistent(requests, other, inFlight[id := sent])
  {
    assert forall i: nat, m: MsgId :: Carries(inFlight[id := sent], i, other, m) <==> Carries(inFlight, i, other, m);
  }

  lemma SendForKeeps(s: State, scope: Scope, running: seq<Delivery>)
    requires CoreInv(s, running)
    ensures CoreInv(SendFor(s, scope), running) && AllSent(SendFor(s, scope).Of(scope))
    ensures forall other :: other != scope ==> SendFor(s, scope).Of(other) == s.Of(other)
  {
    var s', requests := SendFor(s, scope), s.Of(scope);
    SendForRest(s, scope);
    SendForOf(s, scope, scope);
    hide SendFor, State.Of, State.With, Consistent, Balanced, AllSent, Marked, UnsentIds;
    if UnsentIds(requests) == [] {
      NoUnsentIds(requests);
    } else {
      assert ScopeInv(s, scope, running);
      assert s.nextId !in s.inFlight;
      MarkingIsConsistent(requests, scope, s.inFlight, s.nextId);
      forall other ensures ScopeInv(s', other, running) && (other != scope ==> s'.Of(other) == s.Of(other)) {
        assert ScopeInv(s, other, running);
        SendForOf(s, scope, other);
        if other == scope {
          MarkingIsBalanced(requests, s.nextId, scope, s.registered, s.fired, running);
        } else {
          OthersStayConsistent(s.Of(other), other, s.inFlight, s.nextId, Sent(scope, UnsentIds(requests)));
        }
      }
    }
  }

  lemma DroppingEmptyKeeps(s: State, c: nat, running: seq<Delivery>)
    requires CoreInv(s, running) && s.Of(InChannel(c)) == map[]
    ensures var s1 := s.(channels := s.channels - {c});
      CoreInv(s1, running) && forall scope :: s1.Of(scope) == s.Of(scope)
  {
    var s1 := s.(channels := s.channels - {c});
    forall scope ensures s1.Of(scope) == s.Of(scope) && ScopeInv(s1, scope, running) {
      assert ScopeInv(s, scope, running);
      assert s1.Of(scope) == s.Of(scope);
      hide Consistent, Balanced;
    }
  }

  lemma ResolveChannelKeeps(s: State, c: nat, running: seq<Delivery>)
    requires CoreInv(s, running)
    ensures CoreInv(ResolveChannel(s, c), running) && AllSent(ResolveChannel(s, c).Of(InChannel(c)))
    ensures forall other :: other != InChannel(c) ==> ResolveChannel(s, c).Of(other) == s.Of(other)
  {
    hide CoreInv, State.Of, SendFor;
    if s.Of(InChannel(c)) == map[] {
      DroppingEmptyKeeps(s, c, running);
    } else {
      SendForKeeps(s, InChannel(c), running);
    }
  }

  lemma {:induction false} ResolveChannelsKeeps(s: State, keys: set<nat>, running: seq<Delivery>)
    requires CoreInv(s, running)
    ensures CoreInv(ResolveChannels(s, keys), running)
    ensures forall scope :: AllSent(s.Of(scope)) || (scope.InChannel? && scope.channel in keys) ==>
      AllSent(ResolveChannels(s, keys).Of(scope))
    decreases |keys|
  {
    hide CoreInv, State.Of, ResolveChannel, AllSent;
    if keys != {} {
      var c := Least(keys);
      ResolveChannelKeeps(s, c, running);
      ResolveChannelsKeeps(ResolveChannel(s, c), keys - {c}, running);
    }
  }

  lemma UnqueueingKeeps(s: State, running: seq<Delivery>)
    requires CoreInv(s, running)
    ensures CoreInv(s.(delayed := false), running)
  {
    var s0 := s.(delayed := false);
    forall scope ensures ScopeInv(s0, scope, running) {
      assert ScopeInv(s, scope, running);
      assert s0.Of(scope) == s.Of(scope);
      hide Consistent, Balanced;
    }
  }

  lemma EmptyIsSent()
    ensures AllSent(map[])
  {
  }

  lemma ResolveKeeps(s: State, running: seq<Delivery>)
    requires Inv(s, running)
    ensures Inv(Resolve(s), running)
  {
    hide CoreInv, SendFor, ResolveChannels, AllSent;
    UnqueueingKeeps(s, running);
    var s0 := s.(delayed := false);
    SendForKeeps(s0, NotChannel, running);
    var s1 := SendFor(s0, NotChannel);
    ResolveChannelsKeeps(s1, s1.channels.Keys, running);
    EmptyIsSent();
    forall scope ensures AllSent(Resolve(s).Of(scope)) {
      assert scope.InChannel? && scope.channel !in s1.channels ==> s1.Of(scope) == map[];
    }
  }

  lemma FinalizedOf(s: State, scope: Scope, id: nat, other: Scope)
    ensures Finalized(s, scope, id).Of(other) == if other == scope then Remaining(s.Of(scope), id) else s.Of(other)
  {
  }

  lemma RemainingStaysSent(requests: Requests, id: nat)
    requires AllSent(requests)
    ensures AllSent(Remaining(requests, id))
  {
    forall m: MsgId ensures !Awaits(Remaining(requests, id), m, 0) {
      assert !Awaits(requests, m, 0);
    }
  }

  lemma FinalizedRest(s: State, scope: Scope, id: nat)
    ensures var f := Finalized(s, scope, id);
      f.nextId == s.nextId && f.inFlight == s.inFlight && f.registered == s.registered && f.fired == s.fired
        && f.delayed == s.delayed
  {
  }

  lemma ReceivedOf(s: State, id: nat, scope: Scope)
    ensures Received(s, id).Of(scope) == s.Of(scope)
  {
  }

  lemma FinalizeScopeKeeps(s: State, id: nat, other: Scope)
    requires Inv(s, []) && id in s.inFlight
    ensures var scope := s.inFlight[id].scope;
      var f := Finalized(Received(s, id), scope, id);
      ScopeInv(f, other, CollectedAll(scope, s.Of(scope), id)) && (!f.delayed ==> AllSent(f.Of(other)))
  {
    var scope := s.inFlight[id].scope;
    FinalizedRest(Received(s, id), scope, id);
    FinalizedOf(Received(s, id), scope, id, other);
    ReceivedOf(s, id, scope);
    ReceivedOf(s, id, other);
    hide Finalized, State.Of, Consistent, Balanced, AllSent, Remaining, CollectedAll, IdsAreUsed;
    assert ScopeInv(s, other, []);
    RemainingIsConsistent(s.Of(other), other, s.inFlight, id);
    if other == scope {
      RemainingIsBalanced(s.Of(scope), scope, id, s.registered, s.fired);
      if !s.delayed { RemainingStaysSent(s.Of(scope), id); }
    } else {
      OthersStayBalanced(s.Of(other), other, scope, s.Of(scope), id, s.registered, s.fired);
    }
  }

  lemma FinalizeKeeps(s: State, id: nat)
    requires Inv(s, []) && id in s.inFlight
    ensures var scope := s.inFlight[id].scope;
      Inv(Finalized(Received(s, id), scope, id), CollectedAll(scope, s.Of(scope), id))
  {
    var scope := s.inFlight[id].scope;
    var f, running := Finalized(Received(s, id), scope, id), CollectedAll(scope, s.Of(scope), id);
    FinalizedRest(Received(s, id), scope, id);
    assert IdsAreUsed(f);
    hide Finalized, Received, State.Of, ScopeInv, AllSent, CollectedAll, IdsAreUsed;
    forall other ensures ScopeInv(f, other, running) && (!f.delayed ==> AllSent(f.Of(other))) {
      FinalizeScopeKeeps(s, id, other);
    }
  }

  lemma {:induction false} RegisterAllKeeps(s: State, calls: seq<Call>, running: seq<Delivery>)
    requires Inv(s, running)
    ensures Inv(RegisterAll(s, calls), running)
    decreases |calls|
  {
    if calls != [] {
      RegisterKeeps(s, calls[0], running);
      RegisterAllKeeps(Register(s, calls[0]), calls[1..], running);
    }
  }

  lemma FiringIsBalanced(requests: Requests, scope: Scope, registered: seq<Delivery>, fired: seq<Delivery>,
      running: seq<Delivery>)
    requires running != [] && Balanced(requests, scope, registered, fired, running)
    ensures Balanced(requests, scope, registered, fired + [running[0]], running[1..])
  {
    hide ForMessage;
    assert [running[0]] + running[1..] == running;
    forall m: MsgId
      ensures ForMessage(registered, scope, m)
           == ForMessage(fired + [running[0]], scope, m) + ForMessage(running[1..], scope, m)
             + EntryFor(requests, m).callbacks
    {
      ForMessageAppend(fired, [running[0]], scope, m);
      ForMessageAppend([running[0]], running[1..], scope, m);
    }
  }

  lemma {:induction false} FireKeeps(s: State, deliveries: seq<Delivery>, reaction: Callback -> seq<Call>)
    requires Inv(s, deliveries)
    ensures Inv(Fire(s, deliveries, reaction), [])
    decreases |deliveries|
  {
    if deliveries != [] {
      var s' := s.(fired := s.fired + [deliveries[0]]);
      forall scope ensures ScopeInv(s', scope, deliveries[1..]) && (!s'.delayed ==> AllSent(s'.Of(scope))) {
        assert ScopeInv(s, scope, deliveries);
        assert s'.Of(scope) == s.Of(scope);
        FiringIsBalanced(s.Of(scope), scope, s.registered, s.fired, deliveries);
      }
      RegisterAllKeeps(s', reaction(deliveries[0].callback), deliveries[1..]);
      FireKeeps(RegisterAll(s', reaction(deliveries[0].callback)), deliveries[1..], reaction);
    }
  }

  lemma AnswerKeeps(s: State, requestId: nat, reaction: Callback -> seq<Call>)
    requires Inv(s, []) && requestId in s.inFlight
    ensures Inv(Answer(s, requestId, reaction), [])
  {
    hide Inv, Finalized, Received, State.Of, CollectedAll, Fire;
    var scope := s.inFlight[requestId].scope;
    FinalizeKeeps(s, requestId);
    ReceivedOf(s, requestId, scope);
    FireKeeps(Finalized(Received(s, requestId), scope, requestId), CollectedAll(scope, s.Of(scope), requestId),
      reaction);
  }

  // ---- Whole runs ----

  datatype Event = DoRequest(call: Call) | DoResolve | DoAnswer(requestId: nat)

  /** A resolve runs only when it is queued, and only a request on the network is answered. */
  function Step(s: State, event: Event, reaction: Callback -> seq<Call>): State {
    match event
    case DoRequest(call) => Register(s, call)
    case DoResolve => if s.delayed then Resolve(s) else s
    case DoAnswer(id) => if id in s.inFlight then Answer(s, id, reaction) else s
  }

  function Run(events: seq<Event>, reaction: Callback -> seq<Call>): State
    decreases |events|
  {
    if events == [] then INITIAL
    else Step(Run(events[..|events| - 1], reaction), events[|events| - 1], reaction)
  }

  lemma {:induction false} EveryRunKeeps(events: seq<Event>, reaction: Callback -> seq<Call>)
    ensures Inv(Run(events, reaction), [])
    decreases |events|
  {
    if events != [] {
      var s, event := Run(events[..|events| - 1], reaction), events[|events| - 1];
      EveryRunKeeps(events[..|events| - 1], reaction);
      match event
      case DoRequest(call) => RegisterKeeps(s, call, []);
      case DoResolve => if s.delayed { ResolveKeeps(s, []); }
      case DoAnswer(id) => if id in s.inFlight { AnswerKeeps(s, id, reaction); }
    }
  }

  /**
   * At rest - no resolve queued and nothing on the network - both kinds of map
   * are empty and, message by message, the callbacks have fired exactly as they
   * were registered.
   */
  lemma AtRestEverythingFired(events: seq<Event>, reaction: Callback -> seq<Call>, scope: Scope, msgId: MsgId)
    requires !Run(events, reaction).delayed && Run(events, reaction).inFlight == map[]
    ensures var s := Run(events, reaction); s.Of(scope) == map[]
    ensures var s := Run(events, reaction); ForMessage(s.fired, scope, msgId) == ForMessage(s.registered, scope, msgId)
  {
    EveryRunKeeps(events, reaction);
    NothingWaitsAtRest(Run(events, reaction), scope, msgId);
  }

  lemma NothingWaitsAtRest(s: State, scope: Scope, msgId: MsgId)
    requires Inv(s, []) && !s.delayed && s.inFlight == map[]
    ensures s.Of(scope) == map[] && ForMessage(s.fired, scope, msgId) == ForMessage(s.registered, scope, msgId)
  {
    hide ForMessage, State.Of;
    assert ScopeInv(s, scope, []);
    forall m: MsgId ensures m !in s.Of(scope) {
      assert m in s.Of(scope) ==> Awaits(s.Of(scope), m, s.Of(scope)[m].requestId);
    }
    ForMessageNone(scope, msgId);
    assert ForMessage(s.registered, scope, msgId)
        == ForMessage(s.fired, scope, msgId) + ForMessage([], scope, msgId) + EntryFor(s.Of(scope), msgId).callbacks;
  }

  /**
   * In any reachable state a request on the network carries at least one id, and
   * an entry of its map names the request exactly if the request carries it.
   */
  lemma RequestsCarryTheirEntries(events: seq<Event>, reaction: Callback -> seq<Call>, id: nat, msgId: MsgId)
    requires id in Run(events, reaction).inFlight
    ensures var s := Run(events, reaction); var sent := s.inFlight[id];
      sent.ids != [] && (msgId in sent.ids <==> Awaits(s.Of(sent.scope), msgId, id))
    ensures var s := Run(events, reaction);
      forall other :: other != s.inFlight[id].scope ==> !Awaits(s.Of(other), msgId, id)
  {
    EveryRunKeeps(events, reaction);
    var s := Run(events, reaction);
    hide Run, State.Of;
    assert ScopeInv(s, s.inFlight[id].scope, []);
    assert Carries(s.inFlight, id, s.inFlight[id].scope, msgId) <==> msgId in s.inFlight[id].ids;
    forall other | other != s.inFlight[id].scope ensures !Awaits(s.Of(other), msgId, id) {
      assert ScopeInv(s, other, []);
      assert !Carries(s.inFlight, id, other, msgId);
    }
  }

  lemma {:induction false} CountPerMessage(log: seq<Delivery>, d: Delivery)
    ensures multiset(log)[d] == multiset(ForMessage(log, d.scope, d.msgId))[d.callback]
    decreases |log|
  {
    if log != [] {
      CountPerMessage(log[..|log| - 1], d);
      assert log == log[..|log| - 1] + [log[|log| - 1]];
    }
  }

  /** In any reachable state the registrations are, each as often as it was made, those fired and those pending. */
  lemma EachRegistrationCounts(events: seq<Event>, reaction: Callback -> seq<Call>, d: Delivery)
    ensures var s := Run(events, reaction);
      multiset(s.registered)[d] == multiset(s.fired)[d] + multiset(s.Pending(d.scope, d.msgId))[d.callback]
  {
    EveryRunKeeps(events, reaction);
    var s := Run(events, reaction);
    CountPerMessage(s.registered, d);
    CountPerMessage(s.fired, d);
    assert ForMessage([], d.scope, d.msgId) == [];
    assert ScopeInv(s, d.scope, []);
    assert ForMessage(s.registered, d.scope, d.msgId)
        == ForMessage(s.fired, d.scope, d.msgId) + [] + s.Pending(d.scope, d.msgId);
  }

  // ---- What one event does ----

  /** A call adds its callback to those of the message, which is on the network or for which a resolve is queued. */
  lemma RequestRegisters(events: seq<Event>, call: Call, reaction: Callback -> seq<Call>, scope: Scope, msgId: MsgId)
    ensures var s := Run(events, reaction);
      var s', own := Register(s, call), scope == call.scope && msgId == call.msgId;
      && s'.Pending(scope, msgId) == s.Pending(scope, msgId) + (if own then call.done else [])
      && ForMessage(s'.registered, scope, msgId)
         == ForMessage(s.registered, scope, msgId) + (if own then call.done else [])
      && (own ==> msgId in s'.Of(scope))
      && (own && !s'.delayed ==> exists id :: Carries(s'.inFlight, id, scope, msgId))
      && s'.inFlight == s.inFlight && s'.fired == s.fired && (s.delayed ==> s'.delayed)
  {
    EveryRunKeeps(events, reaction);
    hide Run;
    var s := Run(events, reaction);
    RegisterAdds(s, call, scope, msgId);
    RegisterKeeps(s, call, []);
    hide Register, ForMessage, State.Pending;
    if scope == call.scope && msgId == call.msgId && !Register(s, call).delayed {
      SentOrQueued(Register(s, call), scope, msgId);
    }
  }

  lemma RegisterAdds(s: State, call: Call, scope: Scope, msgId: MsgId)
    ensures var s', own := Register(s, call), scope == call.scope && msgId == call.msgId;
      && s'.Pending(scope, msgId) == s.Pending(scope, msgId) + (if own then call.done else [])
      && ForMessage(s'.registered, scope, msgId)
         == ForMessage(s.registered, scope, msgId) + (if own then call.done else [])
      && (own ==> msgId in s'.Of(scope))
      && s'.inFlight == s.inFlight && s'.fired == s.fired && (s.delayed ==> s'.delayed)
  {
    hide ForMessage;
    RegisterOf(s, call, scope);
    ForMessageAppend(s.registered, Deliveries(call.scope, call.msgId, call.done), scope, msgId);
    ForMessageDeliveries(call.scope, call.msgId, call.done, scope, msgId);
    hide State.Of, Deliveries;
  }

  lemma SentOrQueued(s: State, scope: Scope, msgId: MsgId)
    requires Inv(s, []) && !s.delayed && msgId in s.Of(scope)
    ensures exists id :: Carries(s.inFlight, id, scope, msgId)
  {
    hide Balanced, State.Of, Carries;
    assert ScopeInv(s, scope, []);
    assert !Awaits(s.Of(scope), msgId, 0);
    assert Awaits(s.Of(scope), msgId, s.Of(scope)[msgId].requestId);
  }

  predicate Increasing(ids: seq<MsgId>) {
    forall i, j :: 0 <= i < j < |ids| ==> ids[i] < ids[j]
  }

  lemma {:induction false} UnsentIncrease(requests: Requests, keys: set<MsgId>)
    requires keys <= requests.Keys
    ensures Increasing(Unsent(requests, keys))
    decreases |keys|
  {
    if keys != {} {
      var k := Least(keys);
      var rest := Unsent(requests, keys - {k});
      UnsentIncrease(requests, keys - {k});
      forall i | 0 <= i < |rest| ensures k < rest[i] {
        assert rest[i] in rest && rest[i] in keys - {k};
      }
      assert Unsent(requests, keys) == rest || Unsent(requests, keys) == [k] + rest;
    }
  }

  /** The entries of one map name the request that they named, or else the given one, and keep their callbacks. */
  ghost predicate NamedBy(before: Requests, after: Requests, id: nat) {
    && (forall m: MsgId :: m in after <==> m in before)
    && forall m :: m in before ==>
         after[m].callbacks == before[m].callbacks
         && after[m].requestId == if before[m].requestId != 0 then before[m].requestId else id
  }

  /** The one request that went out for what was unsent of a map. */
  ghost predicate SentFor(before: Requests, scope: Scope, inFlight: map<nat, Sent>, id: nat) {
    && id in inFlight && inFlight[id].scope == scope && Increasing(inFlight[id].ids)
    && forall m: MsgId :: m in inFlight[id].ids <==> Awaits(before, m, 0)
  }

  /** From one id on, a request went out for what was unsent of a map, if anything was. */
  ghost predicate SendsUnsent(s: State, s': State, scope: Scope) {
    exists id: nat ::
      && s.nextId <= id && NamedBy(s.Of(scope), s'.Of(scope), id)
      && (AllSent(s.Of(scope)) || (id < s'.nextId && SentFor(s.Of(scope), scope, s'.inFlight, id)))
  }

  ghost predicate OnlyMore(s: State, s': State) {
    && s.nextId <= s'.nextId && s'.registered == s.registered && s'.fired == s.fired
    && (forall id :: id in s.inFlight ==> id in s'.inFlight && s'.inFlight[id] == s.inFlight[id])
    && (forall id :: id in s'.inFlight && id !in s.inFlight ==> s.nextId <= id < s'.nextId)
  }

  lemma NothingNamed(requests: Requests, id: nat)
    requires AllSent(requests)
    ensures NamedBy(requests, requests, id)
  {
    forall m | m in requests ensures requests[m].requestId != 0 {
      assert !Awaits(requests, m, 0);
    }
  }

  lemma SendForSends(s: State, scope: Scope)
    requires IdsAreUsed(s)
    ensures SendsUnsent(s, SendFor(s, scope), scope) && OnlyMore(s, SendFor(s, scope)) && IdsAreUsed(SendFor(s, scope))
    ensures SendFor(s, scope).delayed == s.delayed
    ensures AllSent(SendFor(s, scope).Of(scope))
    ensures forall other :: other != scope ==> SendFor(s, scope).Of(other) == s.Of(other)
  {
    var requests, s' := s.Of(scope), SendFor(s, scope);
    SendForRest(s, scope);
    SendForOf(s, scope, scope);
    forall other | other != scope ensures s'.Of(other) == s.Of(other) {
      SendForOf(s, scope, other);
    }
    forall m: MsgId ensures m in UnsentIds(requests) <==> Awaits(requests, m, 0) {
      UnsentIdsAre(requests, m);
    }
    UnsentIncrease(requests, requests.Keys);
    hide SendFor, State.Of, Unsent;
    if UnsentIds(requests) == [] {
      NothingNamed(requests, s.nextId);
      assert SendsUnsent(s, s', scope);
    } else {
      assert NamedBy(requests, s'.Of(scope), s.nextId);
      assert SentFor(requests, scope, s'.inFlight, s.nextId);
      assert AllSent(s'.Of(scope));
    }
  }

  lemma DroppingKeepsMaps(s: State, c: nat)
    requires s.Of(InChannel(c)) == map[]
    ensures forall scope :: s.(channels := s.channels - {c}).Of(scope) == s.Of(scope)
  {
  }

  /** What was sent stays sent, and maps that are not touched stay. */
  lemma SendsUnsentOn(s: State, s1: State, s2: State, scope: Scope)
    requires s.nextId <= s1.nextId && OnlyMore(s1, s2)
    requires SendsUnsent(s, s1, scope) && s2.Of(scope) == s1.Of(scope)
    ensures SendsUnsent(s, s2, scope)
  {
    hide State.Of, NamedBy, AllSent, Increasing;
    var id :| s.nextId <= id && NamedBy(s.Of(scope), s1.Of(scope), id)
      && (AllSent(s.Of(scope)) || (id < s1.nextId && SentFor(s.Of(scope), scope, s1.inFlight, id)));
    assert NamedBy(s.Of(scope), s2.Of(scope), id);
  }

  lemma SendsUnsentFrom(s: State, s1: State, s2: State, scope: Scope)
    requires s.nextId <= s1.nextId && s1.Of(scope) == s.Of(scope) && SendsUnsent(s1, s2, scope)
    ensures SendsUnsent(s, s2, scope)
  {
  }

  lemma ResolveChannelSends(s: State, c: nat)
    requires IdsAreUsed(s)
    ensures var s' := ResolveChannel(s, c);
      && SendsUnsent(s, s', InChannel(c)) && OnlyMore(s, s') && IdsAreUsed(s') && s'.delayed == s.delayed
      && AllSent(s'.Of(InChannel(c)))
      && forall other :: other != InChannel(c) ==> s'.Of(other) == s.Of(other)
  {
    if s.Of(InChannel(c)) == map[] {
      DroppingKeepsMaps(s, c);
      hide State.Of;
      assert AllSent(s.Of(InChannel(c)));
      NothingNamed(s.Of(InChannel(c)), s.nextId);
    } else {
      SendForSends(s, InChannel(c));
      hide SendsUnsent, State.Of, SendFor;
    }
  }

  lemma NothingToSendFor(s: State, s': State, scope: Scope)
    requires AllSent(s.Of(scope)) && s'.Of(scope) == s.Of(scope)
    ensures SendsUnsent(s, s', scope)
  {
    NothingNamed(s.Of(scope), s.nextId);
  }

  lemma {:induction false} ResolveChannelsSend(s: State, keys: set<nat>)
    requires IdsAreUsed(s)
    ensures var s' := ResolveChannels(s, keys);
      && OnlyMore(s, s') && IdsAreUsed(s') && s'.delayed == s.delayed
      && (forall c :: c in keys ==> SendsUnsent(s, s', InChannel(c)))
      && (forall scope: Scope :: !(scope.InChannel? && scope.channel in keys) ==> s'.Of(scope) == s.Of(scope))
    decreases |keys|
  {
    hide State.Of, ResolveChannel, AllSent, SendsUnsent, IdsAreUsed;
    if keys != {} {
      var c := Least(keys);
      var s1 := ResolveChannel(s, c);
      var s' := ResolveChannels(s1, keys - {c});
      ResolveChannelSends(s, c);
      ResolveChannelsSend(s1, keys - {c});
      SendsUnsentOn(s, s1, s', InChannel(c));
      forall d | d in keys && d != c ensures SendsUnsent(s, s', InChannel(d)) {
        SendsUnsentFrom(s, s1, s', InChannel(d));
      }
    }
  }

  /**
   * A resolve clears the flag and sends, for each map, one new request with exactly the
   * ids that were unsent, in increasing order; their entries name it, and all else stays.
   */
  lemma ResolveSendsUnsent(s: State, scope: Scope)
    requires Inv(s, [])
    ensures var s' := Resolve(s); !s'.delayed && SendsUnsent(s, s', scope) && OnlyMore(s, s')
  {
    var s0 := s.(delayed := false);
    var s1 := SendFor(s0, NotChannel);
    var s' := ResolveChannels(s1, s1.channels.Keys);
    SameMaps(s, s0, scope);
    assert scope.InChannel? && scope.channel !in s1.channels ==> s1.Of(scope) == map[];
    hide State.Of, SendFor, SendsUnsent, ResolveChannels, OnlyMore;
    SendForSends(s0, NotChannel);
    ResolveChannelsSend(s1, s1.channels.Keys);
    OnlyMoreOn(s0, s1, s');
    if scope == NotChannel {
      SendsUnsentOn(s0, s1, s', scope);
    } else if scope.channel in s1.channels {
      SendsUnsentFrom(s0, s1, s', scope);
    } else {
      NothingToSendFor(s0, s', scope);
    }
    SendsUnsentFrom(s, s0, s', scope);
    OnlyMoreFrom(s, s0, s');
  }

  lemma SameMaps(s: State, s0: State, scope: Scope)
    requires s0 == s.(delayed := false)
    ensures s0.Of(scope) == s.Of(scope)
  {
  }

  lemma OnlyMoreOn(s: State, s1: State, s2: State)
    requires OnlyMore(s, s1) && OnlyMore(s1, s2)
    ensures OnlyMore(s, s2) && s.nextId <= s1.nextId
  {
  }

  lemma OnlyMoreFrom(s: State, s0: State, s': State)
    requires s0 == s.(delayed := false) && OnlyMore(s0, s')
    ensures OnlyMore(s, s')
  {
  }

  /** In every run nothing is unsent once a resolve has run. */
  lemma NothingUnsentAfterResolve(events: seq<Event>, reaction: Callback -> seq<Call>, scope: Scope)
    ensures AllSent(Run(events + [DoResolve], reaction).Of(scope))
    ensures !Run(events + [DoResolve], reaction).delayed
  {
    EveryRunKeeps(events + [DoResolve], reaction);
    EveryRunKeeps(events, reaction);
    assert (events + [DoResolve])[..|events|] == events;
    var s := Run(events, reaction);
    ResolveSendsUnsent(s, scope);
    assert Run(events + [DoResolve], reaction) == if s.delayed then Resolve(s) else s;
    hide Run, Resolve, CoreInv;
  }

  /** The registrations that callbacks make, one after another. */
  function Asked(deliveries: seq<Delivery>, reaction: Callback -> seq<Call>): seq<Delivery>
    decreases |deliveries|
  {
    if deliveries == [] then []
    else AskedBy(reaction(deliveries[0].callback)) + Asked(deliveries[1..], reaction)
  }

  function AskedBy(calls: seq<Call>): seq<Delivery>
    decreases |calls|
  {
    if calls == [] then []
    else Deliveries(calls[0].scope, calls[0].msgId, calls[0].done) + AskedBy(calls[1..])
  }

  lemma {:induction false} RegisterAllAsks(s: State, calls: seq<Call>)
    ensures var s' := RegisterAll(s, calls);
      && s'.registered == s.registered + AskedBy(calls) && s'.fired == s.fired && s'.inFlight == s.inFlight
    decreases |calls|
  {
    hide Deliveries;
    if calls != [] {
      RegisterAllAsks(Register(s, calls[0]), calls[1..]);
    }
  }

  lemma {:induction false} FireFires(s: State, deliveries: seq<Delivery>, reaction: Callback -> seq<Call>)
    ensures var s' := Fire(s, deliveries, reaction);
      && s'.fired == s.fired + deliveries && s'.registered == s.registered + Asked(deliveries, reaction)
      && s'.inFlight == s.inFlight
    decreases |deliveries|
  {
    hide RegisterAll, AskedBy;
    if deliveries != [] {
      var s1 := s.(fired := s.fired + [deliveries[0]]);
      var calls := reaction(deliveries[0].callback);
      RegisterAllAsks(s1, calls);
      FireFires(RegisterAll(s1, calls), deliveries[1..], reaction);
    }
  }

  predicate InOrder(deliveries: seq<Delivery>) {
    forall i, j :: 0 <= i < j < |deliveries| ==> deliveries[i].msgId <= deliveries[j].msgId
  }

  lemma {:induction false} CollectedInOrder(scope: Scope, requests: Requests, id: nat, keys: set<MsgId>)
    requires keys <= requests.Keys
    ensures InOrder(Collected(scope, requests, id, keys))
    ensures forall d :: d in Collected(scope, requests, id, keys) ==> d.msgId in keys && d.scope == scope
    decreases |keys|
  {
    if keys != {} {
      var k := Least(keys);
      CollectedInOrder(scope, requests, id, keys - {k});
      var rest := Collected(scope, requests, id, keys - {k});
      assert forall i :: 0 <= i < |rest| ==> rest[i] in rest && k < rest[i].msgId;
      assert forall d :: d in Deliveries(scope, k, requests[k].callbacks) ==> d.msgId == k && d.scope == scope;
    }
  }

  /**
   * An answer calls the callbacks of exactly the entries that name its request, message by
   * message and each in the order of its registrations, and what these ask is registered.
   */
  lemma AnswerFires(s: State, id: nat, reaction: Callback -> seq<Call>)
    requires id in s.inFlight
    ensures var s', scope := Answer(s, id, reaction), s.inFlight[id].scope;
      && s'.inFlight == s.inFlight - {id}
      && exists called: seq<Delivery> ::
        && s'.fired == s.fired + called && s'.registered == s.registered + Asked(called, reaction)
        && InOrder(called)
        && forall other, m :: ForMessage(called, other, m)
             == if other == scope && Awaits(s.Of(scope), m, id) then s.Pending(scope, m) else []
  {
    var scope := s.inFlight[id].scope;
    var called := CollectedAll(scope, s.Of(scope), id);
    ReceivedOf(s, id, scope);
    FinalizedRest(Received(s, id), scope, id);
    FireFires(Finalized(Received(s, id), scope, id), called, reaction);
    CollectedInOrder(scope, s.Of(scope), id, s.Of(scope).Keys);
    hide Fire, Collected, Finalized, State.Of, InOrder, ForMessage;
    forall other, m
      ensures ForMessage(called, other, m)
           == if other == scope && Awaits(s.Of(scope), m, id) then s.Pending(scope, m) else []
    {
      ForMessageCollected(scope, s.Of(scope), id, s.Of(scope).Keys, other, m);
    }
  }

  /** The answers to these requests, each as the network gives it. */
  function AnswersTo(ids: set<nat>): seq<Event>
    decreases |ids|
  {
    if ids == {} then [] else [DoAnswer(Least(ids))] + AnswersTo(ids - {Least(ids)})
  }

  lemma {:induction false} AnswersComeToRest(events: seq<Event>, reaction: Callback -> seq<Call>, ids: set<nat>)
    requires forall c :: reaction(c) == []
    requires Run(events, reaction).inFlight.Keys == ids && !Run(events, reaction).delayed
    ensures var s, s' := Run(events, reaction), Run(events + AnswersTo(ids), reaction);
      !s'.delayed && s'.inFlight == map[] && s'.registered == s.registered
    decreases |ids|
  {
    hide Run, Step;
    if ids == {} {
      assert events + AnswersTo(ids) == events;
    } else {
      var id := Least(ids);
      AnsweredQuietly(events, reaction, id);
      assert (Run(events, reaction).inFlight - {id}).Keys == ids - {id};
      AnswersComeToRest(events + [DoAnswer(id)], reaction, ids - {id});
      assert events + AnswersTo(ids) == events + [DoAnswer(id)] + AnswersTo(ids - {id});
    }
  }

  lemma AnsweredQuietly(events: seq<Event>, reaction: Callback -> seq<Call>, id: nat)
    requires forall c :: reaction(c) == []
    requires id in Run(events, reaction).inFlight
    ensures var s, s' := Run(events, reaction), Run(events + [DoAnswer(id)], reaction);
      s'.delayed == s.delayed && s'.inFlight == s.inFlight - {id} && s'.registered == s.registered
  {
    var more := events + [DoAnswer(id)];
    assert more[..|events|] == events;
    AnsweringQuietly(Run(events, reaction), id, reaction);
    assert Run(more, reaction) == Answer(Run(events, reaction), id, reaction);
  }

  lemma {:induction false} QuietAsksNothing(deliveries: seq<Delivery>, reaction: Callback -> seq<Call>)
    requires forall c :: reaction(c) == []
    ensures Asked(deliveries, reaction) == []
    decreases |deliveries|
  {
    if deliveries != [] {
      QuietAsksNothing(deliveries[1..], reaction);
    }
  }

  lemma {:induction false} FiringQuietly(s: State, deliveries: seq<Delivery>, reaction: Callback -> seq<Call>)
    requires forall c :: reaction(c) == []
    ensures Fire(s, deliveries, reaction).delayed == s.delayed
    decreases |deliveries|
  {
    if deliveries != [] {
      FiringQuietly(RegisterAll(s.(fired := s.fired + [deliveries[0]]), []), deliveries[1..], reaction);
    }
  }

  lemma AnsweringQuietly(s: State, id: nat, reaction: Callback -> seq<Call>)
    requires id in s.inFlight && forall c :: reaction(c) == []
    ensures var s' := Answer(s, id, reaction);
      s'.delayed == s.delayed && s'.inFlight == s.inFlight - {id} && s'.registered == s.registered
  {
    var scope := s.inFlight[id].scope;
    var called := CollectedAll(scope, Received(s, id).Of(scope), id);
    var f := Finalized(Received(s, id), scope, id);
    FinalizedRest(Received(s, id), scope, id);
    FireFires(f, called, reaction);
    QuietAsksNothing(called, reaction);
    FiringQuietly(f, called, reaction);
    hide Fire, Collected, Finalized, State.Of, Asked;
  }

  /**
   * From every state that a run can reach one resolve and an answer to each request
   * come to rest, as long as callbacks ask nothing more; then every callback that was
   * ever passed in has been called, each message's in their order.
   */
  lemma EveryCallbackComes(events: seq<Event>, reaction: Callback -> seq<Call>, scope: Scope, msgId: MsgId)
    requires forall c :: reaction(c) == []
    ensures var resolved := events + [DoResolve];
      var s, s' := Run(events, reaction), Run(resolved + AnswersTo(Run(resolved, reaction).inFlight.Keys), reaction);
      && s'.Of(scope) == map[] && s'.inFlight == map[]
      && ForMessage(s'.fired, scope, msgId) == ForMessage(s.registered, scope, msgId)
  {
    var resolved := events + [DoResolve];
    var all := resolved + AnswersTo(Run(resolved, reaction).inFlight.Keys);
    NothingUnsentAfterResolve(events, reaction, scope);
    assert resolved[..|events|] == events;
    EveryRunKeeps(events, reaction);
    ResolveSendsUnsent(Run(events, reaction), scope);
    assert Run(resolved, reaction).registered == Run(events, reaction).registered;
    hide Run, ForMessage, Resolve, State.Of, Inv, SendsUnsent;
    AnswersComeToRest(resolved, reaction, Run(resolved, reaction).inFlight.Keys);
    AtRestEverythingFired(all, reaction, scope, msgId);
  }

  // ---- The object that the source updates in place ----

  lemma NothingToSend(s: State)
    requires s.common == map[] && s.channels == map[]
    ensures Resolve(s) == s.(delayed := false)
  {
    var s0 := s.(delayed := false);
    assert s0.common.Keys == {} && s0.channels.Keys == {};
    assert SendFor(s0, NotChannel) == s0;
  }

  /** collectMessageIds. */
  method CollectMessageIds(requests: Requests) returns (ids: seq<MsgId>)
    ensures ids == UnsentIds(requests)
  {
    ids := [];
    var left := requests.Keys;
    while left != {}
      invariant left <= requests.Keys
      invariant UnsentIds(requests) == ids + Unsent(requests, left)
      decreases |left|
    {
      var msgId := Least(left);
      left := left - {msgId};
      if requests[msgId].requestId > 0 {
        continue;
      }
      ids := ids + [msgId];
    }
  }

  /** The loop that puts the new request id into every entry without one. */
  method MarkUnsent(requests: Requests, requestId: nat) returns (marked: Requests)
    requires requestId > 0
    ensures marked == Marked(requests, requestId)
  {
    marked := requests;
    var left := requests.Keys;
    while left != {}
      invariant left <= requests.Keys && marked.Keys == requests.Keys
      invariant forall k :: k in left ==> marked[k] == requests[k]
      invariant forall k :: k in requests && k !in left ==> marked[k] == Marked(requests, requestId)[k]
      decreases |left|
    {
      var msgId := Least(left);
      left := left - {msgId};
      if marked[msgId].requestId > 0 {
        continue;
      }
      marked := marked[msgId := marked[msgId].(requestId := requestId)];
    }
  }

  /** The loop of finalizeMessageDataRequest: take out the answered entries, collecting their callbacks. */
  method TakeAnswered(scope: Scope, requests: Requests, requestId: nat)
      returns (rest: Requests, callbacks: seq<Delivery>)
    ensures rest == Remaining(requests, requestId) && callbacks == CollectedAll(scope, requests, requestId)
  {
    hide Deliveries;
    rest, callbacks := requests, [];
    var left := requests.Keys;
    while left != {}
      invariant left <= requests.Keys
      invariant forall k :: k in rest <==> k in requests && (k in left || requests[k].requestId != requestId)
      invariant forall k :: k in rest ==> rest[k] == requests[k]
      invariant CollectedAll(scope, requests, requestId) == callbacks + Collected(scope, requests, requestId, left)
      decreases |left|
    {
      var msgId := Least(left);
      left := left - {msgId};
      if requests[msgId].requestId == requestId {
        callbacks := callbacks + Deliveries(scope, msgId, requests[msgId].callbacks);
        rest := rest - {msgId};
      }
    }
  }

  class ApiWrap {
    var messageDataRequests: Requests
    var channelMessageDataRequests: map<nat, Requests>
    var messageDataResolveDelayed: bool
    var nextRequestId: nat
    var inFlight: map<nat, Sent>
    ghost var registered: seq<Delivery>
    ghost var fired: seq<Delivery>

    ghost function Abs(): State
      reads this
    {
      State(messageDataRequests, channelMessageDataRequests, messageDataResolveDelayed, nextRequestId, inFlight,
        registered, fired)
    }

    constructor ()
      ensures Abs() == INITIAL
    {
      messageDataRequests, channelMessageDataRequests, messageDataResolveDelayed := map[], map[], false;
      nextRequestId, inFlight, registered, fired := 1, map[], [], [];
    }

    method RequestMessageData(call: Call)
      modifies this
      ensures Abs() == Register(old(Abs()), call)
    {
      var requests := match call.scope
        case NotChannel => messageDataRequests
        case InChannel(c) => if c in channelMessageDataRequests then channelMessageDataRequests[c] else map[];
      var entry := EntryFor(requests, call.msgId);
      requests := requests[call.msgId := entry.(callbacks := entry.callbacks + call.done)];
      registered := registered + Deliveries(call.scope, call.msgId, call.done);
      match call.scope {
        case NotChannel => messageDataRequests := requests;
        case InChannel(c) => channelMessageDataRequests := channelMessageDataRequests[c := requests];
      }
      if entry.requestId == 0 {
        messageDataResolveDelayed := true;
      }
    }

    /** Collect the unsent ids of one map, send them as one request and mark their entries. */
    method SendUnsent(scope: Scope)
      requires nextRequestId > 0
      modifies this
      ensures Abs() == SendFor(old(Abs()), scope) && nextRequestId > 0
    {
      hide UnsentIds, Marked;
      var requests := match scope
        case NotChannel => messageDataRequests
        case InChannel(c) => if c in channelMessageDataRequests then channelMessageDataRequests[c] else map[];
      var ids := CollectMessageIds(requests);
      if ids != [] {
        var requestId := nextRequestId;
        nextRequestId := nextRequestId + 1;
        inFlight := inFlight[requestId := Sent(scope, ids)];
        requests := MarkUnsent(requests, requestId);
        match scope {
          case NotChannel => messageDataRequests := requests;
          case InChannel(c) => channelMessageDataRequests := channelMessageDataRequests[c := requests];
        }
      }
    }

    method ResolveMessageDatas()
      requires nextRequestId > 0
      modifies this
      ensures Abs() == Resolve(old(Abs()))
    {
      hide SendFor, ResolveChannels;
      ghost var s := Abs();
      messageDataResolveDelayed := false;
      if messageDataRequests == map[] && channelMessageDataRequests == map[] {
        NothingToSend(s);
        return;
      }
      SendUnsent(NotChannel);
      ResolveChannelMaps();
    }

    /** The loop over the channels, which drops a channel whose map is empty. */
    method ResolveChannelMaps()
      requires nextRequestId > 0
      modifies this
      ensures Abs() == ResolveChannels(old(Abs()), old(channelMessageDataRequests.Keys))
    {
      hide SendFor;
      var left := channelMessageDataRequests.Keys;
      while left != {}
        invariant nextRequestId > 0
        invariant ResolveChannels(old(Abs()), old(channelMessageDataRequests.Keys)) == ResolveChannels(Abs(), left)
        decreases |left|
      {
        var channel := Least(left);
        left := left - {channel};
        if channel !in channelMessageDataRequests || channelMessageDataRequests[channel] == map[] {
          channelMessageDataRequests := channelMessageDataRequests - {channel};
          continue;
        }
        SendUnsent(InChannel(channel));
      }
    }

    method FinalizeMessageDataRequest(scope: Scope, requestId: nat, reaction: Callback -> seq<Call>)
      modifies this
      ensures Abs() == Fire(Finalized(old(Abs()), scope, requestId),
        CollectedAll(scope, old(Abs()).Of(scope), requestId), reaction)
    {
      hide Collected, Fire, Remaining;
      var callbacks := TakeOut(scope, requestId);
      RunCallbacks(callbacks, reaction);
    }

    method TakeOut(scope: Scope, requestId: nat) returns (callbacks: seq<Delivery>)
      modifies this
      ensures Abs() == Finalized(old(Abs()), scope, requestId)
      ensures callbacks == CollectedAll(scope, old(Abs()).Of(scope), requestId)
    {
      hide Remaining;
      match scope {
        case NotChannel =>
          messageDataRequests, callbacks := TakeAnswered(scope, messageDataRequests, requestId);
        case InChannel(c) =>
          if c !in channelMessageDataRequests {
            return [];
          }
          var rest;
          rest, callbacks := TakeAnswered(scope, channelMessageDataRequests[c], requestId);
          channelMessageDataRequests := channelMessageDataRequests[c := rest];
          if rest == map[] {
            channelMessageDataRequests := channelMessageDataRequests - {c};
          }
      }
    }

    /** The callbacks in turn, each of which may request message data again. */
    method RunCallbacks(callbacks: seq<Delivery>, reaction: Callback -> seq<Call>)
      modifies this
      ensures Abs() == Fire(old(Abs()), callbacks, reaction)
    {
      ghost var s := Abs();
      for i := 0 to |callbacks|
        invariant Fire(s, callbacks, reaction) == Fire(Abs(), callbacks[i..], reaction)
      {
        assert callbacks[i..][1..] == callbacks[i + 1..];
        ghost var s0 := Abs();
        fired := fired + [callbacks[i]];
        var calls := reaction(callbacks[i].callback);
        ghost var s1 := Abs();
        for j := 0 to |calls|
          invariant RegisterAll(s1, calls) == RegisterAll(Abs(), calls[j..])
        {
          assert calls[j..][1..] == calls[j + 1..];
          RequestMessageData(calls[j]);
        }
      }
    }

    /** The done and the fail handler of a request do the same for the batching. */
    method ReceiveAnswer(requestId: nat, reaction: Callback -> seq<Call>)
      requires requestId in inFlight
      modifies this
      ensures Abs() == Answer(old(Abs()), requestId, reaction)
    {
      var scope := inFlight[requestId].scope;
      inFlight := inFlight - {requestId};
      FinalizeMessageDataRequest(scope, requestId, reaction);
    }
  }
}
