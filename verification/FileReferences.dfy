// The coalescing of file-reference requests in ApiWrap: requestFileReference
// and refreshFileReference keep one request per origin on the network, however
// many handlers wait for it.
module FileReferences {

  type Origin = nat

  /**
   * A handler passed to refreshFileReference, with the calls of
   * refreshFileReference it makes when it runs, or the extra handler that
   * writes the refreshed sets to local storage.
   */
  datatype Handler = Task(tag: nat, calls: seq<Call>) | LocalWrite

  /**
   * A call of refreshFileReference.  `supported` says whether the origin leads
   * to a request at all, `additional` whether that request has an extra handler.
   */
  datatype Call = Call(origin: Origin, tag: nat, calls: seq<Call>, supported: bool, additional: bool)

  /** A handler registered for, or run for, an origin. */
  datatype Entry = Entry(origin: Origin, handler: Handler)

  /** One run of a handler; `parsed` is false when it was given no references. */
  datatype Invocation = Invocation(entry: Entry, parsed: bool)

  datatype State = State(
    handlers: map<Origin, seq<Handler>>,
    nextId: nat,
    inFlight: map<nat, Origin>,
    requestOf: map<Origin, nat>,
    registered: seq<Entry>,
    called: seq<Invocation>)
  {
    function Waiting(origin: Origin): seq<Handler> {
      if origin in handlers then handlers[origin] else []
    }
  }

  const INITIAL := State(map[], 1, map[], map[], [], [])

  /** requestFileReference, up to the network. */
  function RequestReference(s: State, origin: Origin, handler: Handler): State {
    if origin in s.handlers then s.(handlers := s.handlers[origin := s.handlers[origin] + [handler]])
    else
      s.(handlers := s.handlers[origin := [handler]],
         nextId := s.nextId + 1,
         inFlight := s.inFlight[s.nextId := origin],
         requestOf := s.requestOf[origin := s.nextId])
  }

  /** The lambda `request` of refreshFileReference. */
  function RequestWith(s: State, origin: Origin, handler: Handler, additional: bool): State {
    var s' := RequestReference(s, origin, handler);
    assert origin in s'.handlers;
    if additional && |s'.handlers[origin]| == 1 then
      s'.(handlers := s'.handlers[origin := s'.handlers[origin] + [LocalWrite]])
    else s'
  }

  function Registered(s: State, call: Call): State {
    s.(registered := s.registered + [Entry(call.origin, Task(call.tag, call.calls))])
  }

  function Called(s: State, entry: Entry, parsed: bool): State {
    s.(called := s.called + [Invocation(entry, parsed)])
  }

  function Refresh(s: State, call: Call): State
    decreases call
  {
    if call.supported then
      RequestWith(Registered(s, call), call.origin, Task(call.tag, call.calls), call.additional)
    else
      RefreshAll(Called(Registered(s, call), Entry(call.origin, Task(call.tag, call.calls)), false), call.calls)
  }

  function RefreshAll(s: State, calls: seq<Call>): State
    decreases calls
  {
    if calls == [] then s else RefreshAll(Refresh(s, calls[0]), calls[1..])
  }

  function RunHandler(s: State, origin: Origin, handler: Handler, parsed: bool): State {
    var s' := Called(s, Entry(origin, handler), parsed);
    if handler.Task? then RefreshAll(s', handler.calls) else s'
  }

  function RunHandlers(s: State, origin: Origin, handlers: seq<Handler>, parsed: bool): State
    decreases |handlers|
  {
    if handlers == [] then s
    else RunHandlers(RunHandler(s, origin, handlers[0], parsed), origin, handlers[1..], parsed)
  }

  /** The done (`parsed`) or the fail handler of a request: forget the origin, then run its handlers. */
  function TakenOut(s: State, id: nat): State
    requires id in s.inFlight
  {
    var origin := s.inFlight[id];
    s.(handlers := s.handlers - {origin}, inFlight := s.inFlight - {id}, requestOf := s.requestOf - {origin})
  }

  function Answer(s: State, id: nat, parsed: bool): State
    requires id in s.inFlight && s.inFlight[id] in s.handlers
  {
    RunHandlers(TakenOut(s, id), s.inFlight[id], s.handlers[s.inFlight[id]], parsed)
  }

  // ---- What every step keeps ----

  /** The origins with handlers are exactly those with a request on the network, and each has one. */
  ghost predicate OneRequestEach(s: State) {
    && s.handlers.Keys == s.requestOf.Keys
    && (forall o :: o in s.requestOf ==> s.requestOf[o] in s.inFlight && s.inFlight[s.requestOf[o]] == o)
    && (forall id :: id in s.inFlight ==>
      id < s.nextId && s.inFlight[id] in s.requestOf && s.requestOf[s.inFlight[id]] == id)
  }

  /** A list of handlers starts with one that was passed in, and holds the extra one at most once. */
  ghost predicate WellFormed(handlers: seq<Handler>) {
    handlers != [] && handlers[0].Task? && multiset(handlers)[LocalWrite] <= 1
  }

  ghost predicate ListsAreWellFormed(s: State) {
    forall o :: o in s.handlers ==> WellFormed(s.handlers[o])
  }

  function Entries(called: seq<Invocation>): (e: seq<Entry>)
    ensures |e| == |called|
  {
    seq(|called|, i requires 0 <= i < |called| => called[i].entry)
  }

  function WaitingCount(s: State, e: Entry): nat {
    multiset(s.Waiting(e.origin))[e.handler]
  }

  /** Each handler was registered as often as it ran, is about to run, and waits. */
  ghost predicate Conserved(s: State, running: multiset<Entry>) {
    forall e: Entry :: e.handler.Task? ==>
      multiset(s.registered)[e] == multiset(Entries(s.called))[e] + running[e] + WaitingCount(s, e)
  }

  ghost predicate Inv(s: State, running: multiset<Entry>) {
    OneRequestEach(s) && ListsAreWellFormed(s) && Conserved(s, running)
  }

  lemma EntriesAppend(called: seq<Invocation>, i: Invocation)
    ensures multiset(Entries(called + [i])) == multiset(Entries(called)) + multiset{i.entry}
  {
    assert Entries(called + [i]) == Entries(called) + [i.entry];
  }

  lemma RequestsStayOneEach(s: State, origin: Origin, handler: Handler, additional: bool)
    requires OneRequestEach(s)
    ensures OneRequestEach(RequestWith(s, origin, handler, additional))
  {
    var s1 := RequestReference(s, origin, handler);
    if origin !in s.handlers {
      assert s.nextId !in s.inFlight && origin !in s.requestOf;
    }
    assert OneRequestEach(s1);
  }

  /** What the call makes of the list of its origin. */
  function Extended(waiting: seq<Handler>, handler: Handler, additional: bool): seq<Handler> {
    waiting + [handler] + if waiting == [] && additional then [LocalWrite] else []
  }

  lemma RequestReferenceWaiting(s: State, origin: Origin, handler: Handler, o: Origin)
    ensures var s' := RequestReference(s, origin, handler);
      && s'.Waiting(o) == (if o == origin then s.Waiting(o) + [handler] else s.Waiting(o))
      && (o in s'.handlers <==> o == origin || o in s.handlers)
      && s'.registered == s.registered && s'.called == s.called
  {
  }

  lemma RequestWithWaiting(s: State, origin: Origin, handler: Handler, additional: bool, o: Origin)
    ensures var s' := RequestWith(s, origin, handler, additional);
      && s'.Waiting(o) == (if o == origin then Extended(s.Waiting(o), handler, additional) else s.Waiting(o))
      && (o in s'.handlers <==> o == origin || o in s.handlers)
      && s'.registered == s.registered && s'.called == s.called
  {
    RequestReferenceWaiting(s, origin, handler, o);
    RequestReferenceWaiting(s, origin, handler, origin);
    hide RequestReference;
    var s1 := RequestReference(s, origin, handler);
    assert |s1.handlers[origin]| == |s.Waiting(origin)| + 1;
  }

  lemma ExtendedIsWellFormed(waiting: seq<Handler>, handler: Handler, additional: bool)
    requires handler.Task? && (waiting == [] || WellFormed(waiting))
    ensures WellFormed(Extended(waiting, handler, additional))
    ensures forall h: Handler :: h.Task? ==>
      multiset(Extended(waiting, handler, additional))[h] == multiset(waiting)[h] + if h == handler then 1 else 0
  {
    var e := waiting + [handler];
    assert multiset(e) == multiset(waiting) + multiset{handler};
    if waiting == [] && additional {
      assert multiset(e + [LocalWrite]) == multiset(e) + multiset{LocalWrite};
      assert Extended(waiting, handler, additional) == e + [LocalWrite];
    } else {
      assert Extended(waiting, handler, additional) == e;
    }
  }

  lemma RequestWithKeeps(s: State, origin: Origin, handler: Handler, additional: bool)
    requires OneRequestEach(s) && ListsAreWellFormed(s) && handler.Task?
    ensures var s' := RequestWith(s, origin, handler, additional);
      && OneRequestEach(s') && ListsAreWellFormed(s') && s'.registered == s.registered && s'.called == s.called
      && (forall e: Entry :: e.handler.Task? ==>
            WaitingCount(s', e) == WaitingCount(s, e) + if e == Entry(origin, handler) then 1 else 0)
  {
    RequestsStayOneEach(s, origin, handler, additional);
    hide RequestWith, OneRequestEach, Extended, WellFormed;
    var s' := RequestWith(s, origin, handler, additional);
    ExtendedIsWellFormed(s.Waiting(origin), handler, additional);
    forall o ensures o in s'.handlers ==> WellFormed(s'.handlers[o]) {
      RequestWithWaiting(s, origin, handler, additional, o);
    }
    forall e: Entry | e.handler.Task?
      ensures WaitingCount(s', e) == WaitingCount(s, e) + if e == Entry(origin, handler) then 1 else 0
    {
      RequestWithWaiting(s, origin, handler, additional, e.origin);
    }
    RequestWithWaiting(s, origin, handler, additional, origin);
  }

  lemma CallingKeeps(s: State, entry: Entry, parsed: bool, running: multiset<Entry>)
    requires Inv(s, running + multiset{entry})
    ensures Inv(Called(s, entry, parsed), running)
  {
    EntriesAppend(s.called, Invocation(entry, parsed));
  }

  lemma RegisteringKeeps(s: State, call: Call, running: multiset<Entry>)
    requires Inv(s, running)
    ensures Inv(Registered(s, call), running + multiset{Entry(call.origin, Task(call.tag, call.calls))})
      || call.supported
    ensures OneRequestEach(Registered(s, call)) && ListsAreWellFormed(Registered(s, call))
    ensures forall e: Entry :: WaitingCount(Registered(s, call), e) == WaitingCount(s, e)
    ensures multiset(Registered(s, call).registered)
         == multiset(s.registered) + multiset{Entry(call.origin, Task(call.tag, call.calls))}
  {
  }

  lemma {:induction false} RefreshKeeps(s: State, call: Call, running: multiset<Entry>)
    requires Inv(s, running)
    ensures Inv(Refresh(s, call), running)
    decreases call
  {
    var handler := Task(call.tag, call.calls);
    var s1 := Registered(s, call);
    RegisteringKeeps(s, call, running);
    if call.supported {
      RequestWithKeeps(s1, call.origin, handler, call.additional);
      hide RequestWith, OneRequestEach, ListsAreWellFormed, WaitingCount;
    } else {
      hide Inv, RefreshAll, Called, Registered;
      var entry := Entry(call.origin, handler);
      CallingKeeps(s1, entry, false, running);
      RefreshAllKeeps(Called(s1, entry, false), call.calls, running);
    }
  }

  lemma {:induction false} RefreshAllKeeps(s: State, calls: seq<Call>, running: multiset<Entry>)
    requires Inv(s, running)
    ensures Inv(RefreshAll(s, calls), running)
    decreases calls
  {
    if calls != [] {
      RefreshKeeps(s, calls[0], running);
      RefreshAllKeeps(Refresh(s, calls[0]), calls[1..], running);
    }
  }

  lemma {:induction false} RunHandlersKeeps(s: State, origin: Origin, handlers: seq<Handler>, parsed: bool)
    requires Inv(s, EntriesFor(origin, handlers))
    ensures Inv(RunHandlers(s, origin, handlers, parsed), multiset{})
    decreases |handlers|
  {
    if handlers != [] {
      var h, rest := handlers[0], EntriesFor(origin, handlers[1..]);
      assert EntriesFor(origin, handlers) == rest + multiset{Entry(origin, h)} by {
        EntriesForFirst(origin, handlers);
      }
      CallingKeeps(s, Entry(origin, h), parsed, rest);
      hide Inv, RefreshAll, Called, EntriesFor;
      if h.Task? {
        RefreshAllKeeps(Called(s, Entry(origin, h), parsed), h.calls, rest);
      }
      RunHandlersKeeps(RunHandler(s, origin, h, parsed), origin, handlers[1..], parsed);
    }
  }

  function EntriesFor(origin: Origin, handlers: seq<Handler>): multiset<Entry> {
    multiset(seq(|handlers|, i requires 0 <= i < |handlers| => Entry(origin, handlers[i])))
  }

  lemma EntriesForFirst(origin: Origin, handlers: seq<Handler>)
    requires handlers != []
    ensures EntriesFor(origin, handlers) == EntriesFor(origin, handlers[1..]) + multiset{Entry(origin, handlers[0])}
  {
    var all := seq(|handlers|, i requires 0 <= i < |handlers| => Entry(origin, handlers[i]));
    var rest := seq(|handlers[1..]|, i requires 0 <= i < |handlers[1..]| => Entry(origin, handlers[1..][i]));
    assert all == [all[0]] + rest;
  }

  lemma {:induction false} EntriesForCount(origin: Origin, handlers: seq<Handler>, e: Entry)
    ensures EntriesFor(origin, handlers)[e] == if e.origin == origin then multiset(handlers)[e.handler] else 0
    decreases |handlers|
  {
    if handlers != [] {
      EntriesForFirst(origin, handlers);
      EntriesForCount(origin, handlers[1..], e);
      assert handlers == [handlers[0]] + handlers[1..];
    }
  }

  lemma TakenOutStaysOneEach(s: State, id: nat)
    requires OneRequestEach(s) && id in s.inFlight
    ensures OneRequestEach(TakenOut(s, id))
  {
  }

  /** The Assert of both handlers: the answered origin has its list of handlers. */
  lemma TakingOutKeeps(s: State, id: nat)
    requires Inv(s, multiset{}) && id in s.inFlight
    ensures s.inFlight[id] in s.handlers
    ensures Inv(TakenOut(s, id), EntriesFor(s.inFlight[id], s.handlers[s.inFlight[id]]))
  {
    var origin, s' := s.inFlight[id], TakenOut(s, id);
    assert origin in s.handlers;
    TakenOutStaysOneEach(s, id);
    hide OneRequestEach, EntriesFor;
    forall e: Entry | e.handler.Task?
      ensures multiset(s'.registered)[e]
           == multiset(Entries(s'.called))[e] + EntriesFor(origin, s.handlers[origin])[e] + WaitingCount(s', e)
    {
      EntriesForCount(origin, s.handlers[origin], e);
    }
  }

  lemma AnswerKeeps(s: State, id: nat, parsed: bool)
    requires Inv(s, multiset{}) && id in s.inFlight
    ensures s.inFlight[id] in s.handlers
    ensures Inv(Answer(s, id, parsed), multiset{})
  {
    TakingOutKeeps(s, id);
    RunHandlersKeeps(TakenOut(s, id), s.inFlight[id], s.handlers[s.inFlight[id]], parsed);
  }

  // ---- Whole runs ----

  datatype Event = DoRefresh(call: Call) | DoAnswer(id: nat, parsed: bool)

  function Step(s: State, event: Event): State {
    match event
    case DoRefresh(call) => Refresh(s, call)
    case DoAnswer(id, parsed) =>
      if id in s.inFlight && s.inFlight[id] in s.handlers then Answer(s, id, parsed) else s
  }

  function Run(events: seq<Event>): State
    decreases |events|
  {
    if events == [] then INITIAL else Step(Run(events[..|events| - 1]), events[|events| - 1])
  }

  lemma {:induction false} EveryRunKeeps(events: seq<Event>)
    ensures Inv(Run(events), multiset{})
    decreases |events|
  {
    hide Inv;
    if events == [] {
      InitialKeeps();
    } else {
      var s, event := Run(events[..|events| - 1]), events[|events| - 1];
      EveryRunKeeps(events[..|events| - 1]);
      match event
      case DoRefresh(call) => RefreshKeeps(s, call, multiset{});
      case DoAnswer(id, parsed) => if id in s.inFlight { AnswerKeeps(s, id, parsed); }
    }
  }

  lemma InitialKeeps()
    ensures Inv(INITIAL, multiset{})
  {
    assert Entries([]) == [];
  }

  /** In every reachable state an origin has handlers exactly if one request for it is on the network. */
  lemma HandlersMatchRequests(events: seq<Event>, origin: Origin)
    ensures var s := Run(events);
      origin in s.handlers <==> exists id :: id in s.inFlight && s.inFlight[id] == origin
    ensures var s := Run(events);
      forall i, j :: i in s.inFlight && j in s.inFlight && s.inFlight[i] == s.inFlight[j] ==> i == j
    ensures var s := Run(events);
      origin in s.handlers ==> multiset(s.handlers[origin])[LocalWrite] <= 1
  {
    EveryRunKeeps(events);
    var s := Run(events);
    if origin in s.handlers {
      var id := s.requestOf[origin];
      assert id in s.inFlight && s.inFlight[id] == origin;
    }
  }

  /** With nothing on the network every handler has run exactly as often as it was registered. */
  lemma AtRestEveryHandlerRan(events: seq<Event>, e: Entry)
    requires Run(events).inFlight == map[] && e.handler.Task?
    ensures multiset(Entries(Run(events).called))[e] == multiset(Run(events).registered)[e]
  {
    EveryRunKeeps(events);
    var s := Run(events);
    assert e.origin !in s.handlers by {
      HandlersMatchRequests(events, e.origin);
    }
  }

  /** The extra handler is added by a call exactly if it asks for one and its request is a new one. */
  lemma ExtraHandlerOncePerRequest(s: State, call: Call)
    requires call.supported
    ensures multiset(Refresh(s, call).Waiting(call.origin))[LocalWrite]
         == multiset(s.Waiting(call.origin))[LocalWrite]
           + if call.additional && s.Waiting(call.origin) == [] then 1 else 0
  {
    var s1, handler := Registered(s, call), Task(call.tag, call.calls);
    RequestWithWaiting(s1, call.origin, handler, call.additional, call.origin);
    hide RequestWith;
    var w := s.Waiting(call.origin);
    assert s1.Waiting(call.origin) == w;
    assert multiset(w + [handler]) == multiset(w) + multiset{handler};
    assert multiset(w + [handler] + [LocalWrite]) == multiset(w + [handler]) + multiset{LocalWrite};
    assert Extended(w, handler, call.additional) == w + [handler]
      || Extended(w, handler, call.additional) == w + [handler] + [LocalWrite];
  }

  /** What a call runs at once: nothing if it leads to a request, else its handler, without references. */
  function Trace(call: Call): seq<Invocation>
    decreases call
  {
    if call.supported then []
    else [Invocation(Entry(call.origin, Task(call.tag, call.calls)), false)] + Traces(call.calls)
  }

  function Traces(calls: seq<Call>): seq<Invocation>
    decreases calls
  {
    if calls == [] then [] else Trace(calls[0]) + Traces(calls[1..])
  }

  /** What handlers run: each itself, in order, and what its own calls run at once. */
  function HandlerTraces(origin: Origin, handlers: seq<Handler>, parsed: bool): seq<Invocation> {
    if handlers == [] then []
    else
      [Invocation(Entry(origin, handlers[0]), parsed)]
      + (if handlers[0].Task? then Traces(handlers[0].calls) else [])
      + HandlerTraces(origin, handlers[1..], parsed)
  }

  lemma {:induction false} RefreshRuns(s: State, call: Call)
    ensures Refresh(s, call).called == s.called + Trace(call)
    decreases call
  {
    if !call.supported {
      RefreshAllRuns(Called(Registered(s, call), Entry(call.origin, Task(call.tag, call.calls)), false), call.calls);
    }
  }

  lemma {:induction false} RefreshAllRuns(s: State, calls: seq<Call>)
    ensures RefreshAll(s, calls).called == s.called + Traces(calls)
    decreases calls
  {
    if calls != [] {
      RefreshRuns(s, calls[0]);
      RefreshAllRuns(Refresh(s, calls[0]), calls[1..]);
    }
  }

  lemma {:induction false} HandlersRun(s: State, origin: Origin, handlers: seq<Handler>, parsed: bool)
    ensures RunHandlers(s, origin, handlers, parsed).called == s.called + HandlerTraces(origin, handlers, parsed)
    decreases |handlers|
  {
    if handlers != [] {
      var s' := RunHandler(s, origin, handlers[0], parsed);
      if handlers[0].Task? {
        RefreshAllRuns(Called(s, Entry(origin, handlers[0]), parsed), handlers[0].calls);
      }
      HandlersRun(s', origin, handlers[1..], parsed);
      hide RefreshAll, Traces;
    }
  }

  /**
   * An answer runs exactly the handlers that waited for its origin, in the order in which
   * they were passed in, and tells each whether there are references.
   */
  lemma AnswerRunsHandlers(events: seq<Event>, id: nat, parsed: bool)
    requires id in Run(events).inFlight
    ensures var s := Run(events); var origin := s.inFlight[id];
      && origin in s.handlers && s.handlers[origin] != []
      && Step(s, DoAnswer(id, parsed)).called == s.called + HandlerTraces(origin, s.handlers[origin], parsed)
  {
    EveryRunKeeps(events);
    var s := Run(events);
    TakingOutKeeps(s, id);
    HandlersRun(TakenOut(s, id), s.inFlight[id], s.handlers[s.inFlight[id]], parsed);
    hide Run, RunHandlers, HandlerTraces;
  }

  /**
   * A call that leads to a request lets its handler wait at the end of those of its origin,
   * and sends a request exactly if there are none; the extra handler comes right behind the first.
   */
  lemma RefreshWaits(s: State, call: Call)
    requires call.supported
    ensures var s', before := Refresh(s, call), s.Waiting(call.origin);
      && s'.Waiting(call.origin)
         == before + [Task(call.tag, call.calls)] + (if call.additional && before == [] then [LocalWrite] else [])
      && (forall other :: other != call.origin ==> s'.Waiting(other) == s.Waiting(other))
      && s'.registered == s.registered + [Entry(call.origin, Task(call.tag, call.calls))]
      && (call.origin in s.handlers ==> s'.inFlight == s.inFlight)
      && (call.origin !in s.handlers ==> s'.inFlight == s.inFlight[s.nextId := call.origin])
  {
    var s1, handler := Registered(s, call), Task(call.tag, call.calls);
    RequestWithWaiting(s1, call.origin, handler, call.additional, call.origin);
    forall other | other != call.origin ensures Refresh(s, call).Waiting(other) == s.Waiting(other) {
      RequestWithWaiting(s1, call.origin, handler, call.additional, other);
    }
  }

  // ---- The object that the source updates in place ----

  class ApiWrap {
    var fileReferenceHandlers: map<Origin, seq<Handler>>
    var nextRequestId: nat
    var inFlight: map<nat, Origin>
    ghost var requestOf: map<Origin, nat>
    ghost var registered: seq<Entry>
    ghost var called: seq<Invocation>

    ghost function Abs(): State
      reads this
    {
      State(fileReferenceHandlers, nextRequestId, inFlight, requestOf, registered, called)
    }

    constructor ()
      ensures Abs() == INITIAL
    {
      fileReferenceHandlers, nextRequestId, inFlight, requestOf := map[], 1, map[], map[];
      registered, called := [], [];
    }

    method RequestFileReference(origin: Origin, handler: Handler)
      modifies this
      ensures Abs() == RequestReference(old(Abs()), origin, handler)
    {
      if origin in fileReferenceHandlers {
        fileReferenceHandlers := fileReferenceHandlers[origin := fileReferenceHandlers[origin] + [handler]];
        return;
      }
      fileReferenceHandlers := fileReferenceHandlers[origin := [handler]];
      inFlight := inFlight[nextRequestId := origin];
      requestOf := requestOf[origin := nextRequestId];
      nextRequestId := nextRequestId + 1;
    }

    method RefreshFileReference(call: Call)
      modifies this
      ensures Abs() == Refresh(old(Abs()), call)
      decreases call.calls, 1
    {
      var handler := Task(call.tag, call.calls);
      registered := registered + [Entry(call.origin, handler)];
      if call.supported {
        RequestFileReference(call.origin, handler);
        if call.additional {
          assert call.origin in fileReferenceHandlers;
          if |fileReferenceHandlers[call.origin]| == 1 {
            fileReferenceHandlers :=
              fileReferenceHandlers[call.origin := fileReferenceHandlers[call.origin] + [LocalWrite]];
          }
        }
      } else {
        CallHandler(call.origin, handler, false);
      }
    }

    /** `handler(...)`: the handler may call refreshFileReference again, for any origin. */
    method CallHandler(origin: Origin, handler: Handler, parsed: bool)
      modifies this
      ensures Abs() == RunHandler(old(Abs()), origin, handler, parsed)
      decreases if handler.Task? then handler.calls else [], 0
    {
      called := called + [Invocation(Entry(origin, handler), parsed)];
      if handler.Task? {
        ghost var s := Abs();
        for i := 0 to |handler.calls|
          invariant RefreshAll(s, handler.calls) == RefreshAll(Abs(), handler.calls[i..])
        {
          assert handler.calls[i..][1..] == handler.calls[i + 1..];
          RefreshFileReference(handler.calls[i]);
        }
      }
    }

    /** The done and fail handlers: erase the origin first, then run the handlers it had. */
    method ReceiveAnswer(id: nat, parsed: bool)
      requires Inv(Abs(), multiset{}) && id in inFlight
      modifies this
      ensures old(inFlight[id] in fileReferenceHandlers) && Abs() == Answer(old(Abs()), id, parsed)
      ensures Inv(Abs(), multiset{})
    {
      ghost var s := Abs();
      AnswerKeeps(s, id, parsed);
      hide Inv;
      var origin := inFlight[id];
      inFlight := inFlight - {id};
      assert origin in fileReferenceHandlers;
      var handlers := fileReferenceHandlers[origin];
      fileReferenceHandlers := fileReferenceHandlers - {origin};
      requestOf := requestOf - {origin};
      for i := 0 to |handlers|
        invariant RunHandlers(TakenOut(s, id), origin, handlers, parsed)
          == RunHandlers(Abs(), origin, handlers[i..], parsed)
      {
        assert handlers[i..][1..] == handlers[i + 1..];
        CallHandler(origin, handlers[i], parsed);
      }
    }
  }
}
