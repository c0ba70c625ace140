// The web-page resolver of ApiWrap: requestWebPageDelayed, clearWebPageRequest,
// resolveWebPages and gotWebPages.  While requests are being put together a
// pending page carries a temporary negative number that names its request.
module WebPages {
  import opened FlatMap

  type Page = nat

  const INT_MAX := 0x7FFF_FFFF

  datatype Option<T> = None | Some(value: T)

  datatype Scope = NotChannel | InChannel(channel: nat)

  /** The message that shows a page. */
  datatype Item = Item(scope: Scope, msgId: int)

  datatype WebPage = WebPage(pendingTill: int, failed: bool, hasUrl: bool)

  /** A request for messages: where it went, the ids it carries, and the pages they are for. */
  datatype Sent = Sent(scope: Scope, ids: seq<int>, pages: seq<Page>)

  /**
   * The pending pages with their request ids (0 while unsent), the pages, the
   * delay of the timer if it is active, and the requests: all that were sent,
   * those unanswered, and those that failed.
   */
  datatype State = State(
    pending: map<Page, int>,
    pages: map<Page, WebPage>,
    timer: Option<int>,
    nextId: int,
    sent: map<int, Sent>,
    inFlight: set<int>,
    failed: set<int>)

  const INITIAL := State(map[], map[], None, 1, map[], {}, {})

  function Till(pages: map<Page, WebPage>, page: Page): int {
    if page in pages then pages[page].pendingTill else 0
  }

  // ---- What one resolve is to do ----

  /** The state a resolve looks at: the time, the pages, and the message of each page that has one. */
  datatype View = View(pending: map<Page, int>, pages: map<Page, WebPage>, now: int, items: map<Page, Item>)
  {
    predicate Unsent(page: Page) {
      page in pending && pending[page] <= 0
    }

    /** The pages that go into a request now. */
    predicate Due(page: Page) {
      Unsent(page) && Till(pages, page) <= now && page in items
    }

    predicate DueIn(page: Page, scope: Scope) {
      Due(page) && items[page].scope == scope
    }

    /** Among the given keys, in their order, the pages for a request to one scope. */
    function DuePages(scope: Scope, keys: set<Page>): (due: seq<Page>)
      ensures forall p :: p in due <==> p in keys && DueIn(p, scope)
      decreases |keys|
    {
      if keys == {} then []
      else
        var p := Least(keys);
        var rest := DuePages(scope, keys - {p});
        if DueIn(p, scope) then [p] + rest else rest
    }

    /** The ids of the messages that show those pages. */
    function DueIds(scope: Scope, keys: set<Page>): seq<int>
      decreases |keys|
    {
      if keys == {} then []
      else
        var p := Least(keys);
        var rest := DueIds(scope, keys - {p});
        if DueIn(p, scope) then [items[p].msgId] + rest else rest
    }

    function RequestTo(scope: Scope): Sent {
      Sent(scope, DueIds(scope, pending.Keys), DuePages(scope, pending.Keys))
    }

    /** The channels that get a request. */
    function Channels(keys: set<Page>): (channels: set<nat>)
      ensures forall c :: c in channels <==> exists p :: p in keys && DueIn(p, InChannel(c))
    {
      var due := set p | p in keys && Due(p) && items[p].scope.InChannel?;
      set p | p in due :: items[p].scope.channel
    }

    /** The least remaining wait of the pages that are not due yet. */
    function LeastWait(keys: set<Page>): int
      decreases |keys|
    {
      if keys == {} then INT_MAX
      else
        var p := Least(keys);
        var rest := LeastWait(keys - {p});
        if Unsent(p) && Till(pages, p) > now && Till(pages, p) - now < rest then Till(pages, p) - now else rest
    }
  }

  /** Fresh ids for channels, in the order in which the requests to them are sent. */
  function RequestIds(channels: set<nat>, nextId: int): (ids: map<nat, int>)
    ensures ids.Keys == channels
    decreases |channels|
  {
    if channels == {} then map[]
    else
      var c := Least(channels);
      RequestIds(channels - {c}, nextId + 1)[c := nextId]
  }

  /** The id of the request to each scope: first the common one, if there is any, then the channels. */
  function RequestIdFor(v: View, nextId: int, scope: Scope): int
    requires scope.InChannel? ==> scope.channel in v.Channels(v.pending.Keys)
  {
    match scope
    case NotChannel => nextId
    case InChannel(c) => RequestIds(v.Channels(v.pending.Keys), FirstChannelId(v, nextId))[c]
  }

  function FirstChannelId(v: View, nextId: int): int {
    if v.DueIds(NotChannel, v.pending.Keys) == [] then nextId else nextId + 1
  }

  function ResolvedPending(v: View, nextId: int): map<Page, int> {
    map p | p in v.pending ::
      if v.Due(p) then
        assert v.DueIn(p, v.items[p].scope);
        RequestIdFor(v, nextId, v.items[p].scope)
      else v.pending[p]
  }

  /** The requests to the channels. */
  function ChannelRequests(v: View, channels: set<nat>, nextId: int): map<int, Sent>
    decreases |channels|
  {
    if channels == {} then map[]
    else
      var c := Least(channels);
      ChannelRequests(v, channels - {c}, nextId + 1)[nextId := v.RequestTo(InChannel(c))]
  }

  function NewRequests(v: View, nextId: int): map<int, Sent> {
    (if v.DueIds(NotChannel, v.pending.Keys) == [] then map[] else map[nextId := v.RequestTo(NotChannel)])
    + ChannelRequests(v, v.Channels(v.pending.Keys), FirstChannelId(v, nextId))
  }

  // ---- The first loop: temporary ids ----

  /** For each channel the place of its request, and the ids for it. */
  type ByChannel = map<nat, (int, seq<int>)>

  ghost predicate Indexed(byChannel: ByChannel) {
    && (forall c :: c in byChannel ==> 0 <= byChannel[c].0 < |byChannel|)
    && (forall c, d :: c in byChannel && d in byChannel && byChannel[c].0 == byChannel[d].0 ==> c == d)
  }

  /** The number that stands for the request of a page until the request has an id. */
  function Temporary(v: View, byChannel: ByChannel, p: Page): int
    requires p in v.pending
  {
    if !v.Due(p) then v.pending[p]
    else match v.items[p].scope
      case NotChannel => -1
      case InChannel(c) => if c in byChannel then -byChannel[c].0 - 2 else 0
  }

  function IdsOf(byChannel: ByChannel, c: nat): seq<int> {
    if c in byChannel then byChannel[c].1 else []
  }

  function Min(a: int, b: int): int { if b < a then b else a }

  ghost predicate Numbered(v: View, left: set<Page>, pending: map<Page, int>, byChannel: ByChannel) {
    && left <= v.pending.Keys == pending.Keys
    && (forall p :: p in left ==> pending[p] == v.pending[p])
    && (forall p :: p in v.pending && p !in left ==> pending[p] == Temporary(v, byChannel, p))
    && byChannel.Keys == v.Channels(v.pending.Keys - left)
    && Indexed(byChannel)
  }

  ghost predicate IdsCollected(v: View, left: set<Page>, ids: seq<int>, byChannel: ByChannel) {
    && v.DueIds(NotChannel, v.pending.Keys) == ids + v.DueIds(NotChannel, left)
    && (forall c: nat :: v.DueIds(InChannel(c), v.pending.Keys) == IdsOf(byChannel, c) + v.DueIds(InChannel(c), left))
  }

  ghost predicate WaitFound(v: View, left: set<Page>, m: int) {
    v.LeastWait(v.pending.Keys) == Min(m, v.LeastWait(left)) && m <= INT_MAX
  }

  /** What the first loop has done when the given keys are left. */
  ghost predicate Collecting(v: View, left: set<Page>, pending: map<Page, int>, ids: seq<int>, byChannel: ByChannel,
      m: int) {
    Numbered(v, left, pending, byChannel) && IdsCollected(v, left, ids, byChannel) && WaitFound(v, left, m)
  }

  /** A page joins the request of its channel, which may be new. */
  function Joined(byChannel: ByChannel, c: nat, msgId: int): ByChannel {
    if c in byChannel then byChannel[c := (byChannel[c].0, byChannel[c].1 + [msgId])]
    else byChannel[c := (|byChannel|, [msgId])]
  }

  lemma JoinedIsIndexed(byChannel: ByChannel, c: nat, msgId: int)
    requires Indexed(byChannel)
    ensures Indexed(Joined(byChannel, c, msgId))
  {
    var joined := Joined(byChannel, c, msgId);
    if c in byChannel {
      assert joined.Keys == byChannel.Keys;
      assert |joined| == |byChannel|;
    } else {
      assert |joined| == |byChannel| + 1;
    }
    assert forall d :: d in joined ==> d == c || d in byChannel;
  }

  lemma JoinedKeepsOthers(byChannel: ByChannel, c: nat, msgId: int, d: nat)
    ensures IdsOf(Joined(byChannel, c, msgId), d) == IdsOf(byChannel, d) + if d == c then [msgId] else []
    ensures d in byChannel ==> Joined(byChannel, c, msgId)[d].0 == byChannel[d].0
    ensures Joined(byChannel, c, msgId).Keys == byChannel.Keys + {c}
  {
  }

  lemma LeastWaitBound(v: View, keys: set<Page>)
    ensures v.LeastWait(keys) <= INT_MAX
    decreases |keys|
  {
    if keys != {} { LeastWaitBound(v, keys - {Least(keys)}); }
  }

  /** The loop of resolveWebPages that sorts the due pages into requests. */
  method CollectDue(v: View) returns (pending: map<Page, int>, ids: seq<int>, byChannel: ByChannel, m: int)
    ensures Collecting(v, {}, pending, ids, byChannel, m)
  {
    hide Collecting, Joined, Numbered, View.DueIds, View.LeastWait, View.Channels;
    pending, ids, byChannel, m := v.pending, [], map[], INT_MAX;
    var left := v.pending.Keys;
    CollectingStarts(v);
    while left != {}
      invariant left <= v.pending.Keys && left <= pending.Keys && forall p :: p in left ==> pending[p] == v.pending[p]
      invariant Collecting(v, left, pending, ids, byChannel, m)
      decreases |left|
    {
      var page := Least(left);
      ghost var pending0, ids0, byChannel0, m0, left0 := pending, ids, byChannel, m, left;
      left := left - {page};
      if pending[page] > 0 {
        CollectingPasses(v, left0, pending0, ids0, byChannel0, m0);
        continue;
      }
      if Till(v.pages, page) <= v.now {
        if page in v.items {
          var item := v.items[page];
          if item.scope.InChannel? {
            byChannel := Joined(byChannel, item.scope.channel, item.msgId);
            JoinedKeepsOthers(byChannel0, item.scope.channel, item.msgId, item.scope.channel);
            pending := pending[page := -byChannel[item.scope.channel].0 - 2];
            CollectingChannel(v, left0, pending0, ids0, byChannel0, m0);
          } else {
            ids := ids + [item.msgId];
            pending := pending[page := -1];
            CollectingCommon(v, left0, pending0, ids0, byChannel0, m0);
          }
        } else {
          CollectingPasses(v, left0, pending0, ids0, byChannel0, m0);
        }
      } else {
        m := Min(m, Till(v.pages, page) - v.now);
        CollectingWaits(v, left0, pending0, ids0, byChannel0, m0);
      }
    }
  }

  lemma NumberedStarts(v: View)
    ensures Numbered(v, v.pending.Keys, v.pending, map[])
  {
    assert v.pending.Keys - v.pending.Keys == {};
    assert v.Channels({}) == {};
    hide View.Channels, Temporary;
  }

  lemma CollectingStarts(v: View)
    ensures Collecting(v, v.pending.Keys, v.pending, [], map[], INT_MAX)
  {
    hide Numbered, View.LeastWait, View.DueIds;
    NumberedStarts(v);
    LeastWaitBound(v, v.pending.Keys);
  }

  /** One more key visited: which channels have a request now. */
  lemma ChannelsStep(v: View, left: set<Page>, p: Page)
    requires left <= v.pending.Keys && p in left
    ensures v.Channels(v.pending.Keys - (left - {p}))
         == v.Channels(v.pending.Keys - left)
           + if v.Due(p) && v.items[p].scope.InChannel? then {v.items[p].scope.channel} else {}
  {
    var now, before := v.pending.Keys - (left - {p}), v.pending.Keys - left;
    assert forall q :: q in now <==> q in before || q == p;
    if v.Due(p) && v.items[p].scope.InChannel? {
      assert v.DueIn(p, InChannel(v.items[p].scope.channel));
    }
  }

  lemma CollectingPasses(v: View, left: set<Page>, pending: map<Page, int>, ids: seq<int>, byChannel: ByChannel, m: int)
    requires Collecting(v, left, pending, ids, byChannel, m) && left != {}
    requires var p := Least(left); !v.Due(p) && (v.Unsent(p) ==> Till(v.pages, p) <= v.now)
    ensures Collecting(v, left - {Least(left)}, pending, ids, byChannel, m)
  {
    ChannelsStep(v, left, Least(left));
  }

  lemma CollectingWaits(v: View, left: set<Page>, pending: map<Page, int>, ids: seq<int>, byChannel: ByChannel, m: int)
    requires Collecting(v, left, pending, ids, byChannel, m) && left != {}
    requires var p := Least(left); v.Unsent(p) && Till(v.pages, p) > v.now
    ensures Collecting(v, left - {Least(left)}, pending, ids, byChannel, Min(m, Till(v.pages, Least(left)) - v.now))
  {
    ChannelsStep(v, left, Least(left));
  }

  lemma CommonNumbered(v: View, left: set<Page>, pending: map<Page, int>, byChannel: ByChannel, p: Page)
    requires Numbered(v, left, pending, byChannel) && p in left && v.DueIn(p, NotChannel)
    ensures Numbered(v, left - {p}, pending[p := -1], byChannel)
  {
    ChannelsStep(v, left, p);
  }

  lemma CollectingCommon(v: View, left: set<Page>, pending: map<Page, int>, ids: seq<int>, byChannel: ByChannel, m: int)
    requires Collecting(v, left, pending, ids, byChannel, m) && left != {} && v.DueIn(Least(left), NotChannel)
    ensures var p := Least(left); Collecting(v, left - {p}, pending[p := -1], ids + [v.items[p].msgId], byChannel, m)
  {
    CommonNumbered(v, left, pending, byChannel, Least(left));
    hide Numbered;
  }

  lemma TemporaryStays(v: View, byChannel: ByChannel, c: nat, msgId: int, visited: set<Page>, q: Page)
    requires q in v.pending && q in visited && byChannel.Keys == v.Channels(visited)
    ensures Temporary(v, Joined(byChannel, c, msgId), q) == Temporary(v, byChannel, q)
  {
    if v.Due(q) && v.items[q].scope.InChannel? {
      var d := v.items[q].scope.channel;
      assert v.DueIn(q, InChannel(d));
      assert d in byChannel;
      JoinedKeepsOthers(byChannel, c, msgId, d);
    }
    hide Joined, View.Channels;
  }

  lemma NumberedAfter(v: View, left: set<Page>, pending: map<Page, int>, byChannel: ByChannel, p: Page, number: int,
      after: ByChannel)
    requires Numbered(v, left, pending, byChannel) && p in left
    requires Indexed(after) && after.Keys == v.Channels(v.pending.Keys - (left - {p}))
    requires Temporary(v, after, p) == number
    requires forall q :: q in v.pending && q !in left ==> Temporary(v, after, q) == Temporary(v, byChannel, q)
    ensures Numbered(v, left - {p}, pending[p := number], after)
  {
    hide Temporary, Indexed, View.Channels;
  }

  lemma ChannelNumbered(v: View, left: set<Page>, pending: map<Page, int>, byChannel: ByChannel, p: Page, c: nat,
      msgId: int)
    requires Numbered(v, left, pending, byChannel) && p in left && v.DueIn(p, InChannel(c))
    ensures c in Joined(byChannel, c, msgId)
    ensures Numbered(v, left - {p}, pending[p := -Joined(byChannel, c, msgId)[c].0 - 2], Joined(byChannel, c, msgId))
  {
    hide Joined, Indexed, Temporary, View.Channels, View.DueIn;
    var joined := Joined(byChannel, c, msgId);
    ChannelJoins(v, left, p, c);
    JoinedIsIndexed(byChannel, c, msgId);
    JoinedKeepsOthers(byChannel, c, msgId, c);
    forall q | q in v.pending && q !in left ensures Temporary(v, joined, q) == Temporary(v, byChannel, q) {
      TemporaryStays(v, byChannel, c, msgId, v.pending.Keys - left, q);
    }
    TemporaryOf(v, joined, p, c);
    hide Numbered;
    NumberedAfter(v, left, pending, byChannel, p, -joined[c].0 - 2, joined);
  }

  lemma TemporaryOf(v: View, byChannel: ByChannel, p: Page, c: nat)
    requires v.DueIn(p, InChannel(c)) && c in byChannel
    ensures Temporary(v, byChannel, p) == -byChannel[c].0 - 2
  {
  }

  lemma ChannelJoins(v: View, left: set<Page>, p: Page, c: nat)
    requires left <= v.pending.Keys && p in left && v.DueIn(p, InChannel(c))
    ensures v.Channels(v.pending.Keys - (left - {p})) == v.Channels(v.pending.Keys - left) + {c}
  {
    ChannelsStep(v, left, p);
    hide View.Channels;
  }

  lemma ChannelIdsAt(v: View, left: set<Page>, ids: seq<int>, byChannel: ByChannel, p: Page, c: nat, msgId: int, d: nat)
    requires left != {} && p == Least(left) && v.DueIn(p, InChannel(c)) && msgId == v.items[p].msgId
    requires v.DueIds(InChannel(d), v.pending.Keys) == IdsOf(byChannel, d) + v.DueIds(InChannel(d), left)
    ensures v.DueIds(InChannel(d), v.pending.Keys)
      == IdsOf(Joined(byChannel, c, msgId), d) + v.DueIds(InChannel(d), left - {p})
  {
    JoinedKeepsOthers(byChannel, c, msgId, d);
    DueIdsStep(v, InChannel(d), left, InChannel(c));
    hide Joined, IdsOf, View.DueIn, View.DueIds;
  }

  lemma ChannelIds(v: View, left: set<Page>, ids: seq<int>, byChannel: ByChannel, p: Page, c: nat, msgId: int)
    requires left != {} && p == Least(left) && IdsCollected(v, left, ids, byChannel) && v.DueIn(p, InChannel(c))
      && msgId == v.items[p].msgId
    ensures IdsCollected(v, left - {p}, ids, Joined(byChannel, c, msgId))
  {
    DueIdsStep(v, NotChannel, left, InChannel(c));
    hide Joined, IdsOf, View.DueIn, View.DueIds;
    forall d: nat {
      ChannelIdsAt(v, left, ids, byChannel, p, c, msgId, d);
    }
  }

  lemma DueIdsStep(v: View, scope: Scope, left: set<Page>, due: Scope)
    requires left != {} && v.DueIn(Least(left), due)
    ensures var p := Least(left);
      v.DueIds(scope, left) == (if scope == due then [v.items[p].msgId] else []) + v.DueIds(scope, left - {p})
  {
  }

  lemma CollectingChannel(v: View, left: set<Page>, pending: map<Page, int>, ids: seq<int>, byChannel: ByChannel,
      m: int)
    requires Collecting(v, left, pending, ids, byChannel, m) && left != {}
    requires v.Due(Least(left)) && v.items[Least(left)].scope.InChannel?
    ensures var p := Least(left);
      var c := v.items[p].scope.channel;
      var joined := Joined(byChannel, c, v.items[p].msgId);
      Collecting(v, left - {p}, pending[p := -joined[c].0 - 2], ids, joined, m)
  {
    hide Joined, Numbered, IdsCollected;
    var p := Least(left);
    ChannelNumbered(v, left, pending, byChannel, p, v.items[p].scope.channel, v.items[p].msgId);
    ChannelIds(v, left, ids, byChannel, p, v.items[p].scope.channel, v.items[p].msgId);
    assert WaitFound(v, left - {p}, m);
    hide WaitFound;
  }

  // ---- Facts about the requests ----

  lemma {:induction false} IdsMatchPages(v: View, scope: Scope, keys: set<Page>)
    ensures var pages, ids := v.DuePages(scope, keys), v.DueIds(scope, keys);
      |ids| == |pages| && forall i :: 0 <= i < |pages| ==> pages[i] in v.items && ids[i] == v.items[pages[i]].msgId
    decreases |keys|
  {
    if keys != {} {
      IdsMatchPages(v, scope, keys - {Least(keys)});
    }
  }

  lemma SomeIds(v: View, scope: Scope, p: Page)
    requires v.DueIn(p, scope)
    ensures v.DueIds(scope, v.pending.Keys) != []
  {
    IdsMatchPages(v, scope, v.pending.Keys);
    assert p in v.DuePages(scope, v.pending.Keys);
  }

  lemma {:induction false} ChannelRequestIds(v: View, channels: set<nat>, nextId: int, id: int)
    ensures id in ChannelRequests(v, channels, nextId) <==> nextId <= id < nextId + |channels|
    decreases |channels|
  {
    hide View.RequestTo;
    if channels != {} {
      ChannelRequestIds(v, channels - {Least(channels)}, nextId + 1, id);
    }
  }

  lemma {:induction false} ChannelRequestAt(v: View, channels: set<nat>, nextId: int, c: nat)
    requires c in channels
    ensures var id := RequestIds(channels, nextId)[c];
      nextId <= id < nextId + |channels| && id in ChannelRequests(v, channels, nextId)
      && ChannelRequests(v, channels, nextId)[id] == v.RequestTo(InChannel(c))
    decreases |channels|
  {
    hide View.RequestTo;
    if c != Least(channels) {
      ChannelRequestAt(v, channels - {Least(channels)}, nextId + 1, c);
    }
  }

  /** The channel whose request has a given id. */
  function ChannelOf(channels: set<nat>, nextId: int, id: int): (c: nat)
    requires nextId <= id < nextId + |channels|
    ensures c in channels
    decreases |channels|
  {
    if id == nextId then Least(channels) else ChannelOf(channels - {Least(channels)}, nextId + 1, id)
  }

  lemma {:induction false} ChannelOfId(channels: set<nat>, nextId: int, id: int)
    requires nextId <= id < nextId + |channels|
    ensures RequestIds(channels, nextId)[ChannelOf(channels, nextId, id)] == id
    decreases |channels|
  {
    if id != nextId {
      ChannelOfId(channels - {Least(channels)}, nextId + 1, id);
    }
  }

  // ---- The steps ----

  function ViewOf(s: State, now: int, items: map<Page, Item>): View {
    View(s.pending, s.pages, now, items)
  }

  function NextIdAfter(v: View, nextId: int): int {
    FirstChannelId(v, nextId) + |v.Channels(v.pending.Keys)|
  }

  function TimerFor(wait: int): Option<int> {
    if wait < INT_MAX then Some(Min(wait, 86400) * 1000) else None
  }

  /** The timer has fired: resolveWebPages. */
  function Resolve(s: State, now: int, items: map<Page, Item>): State {
    var v := ViewOf(s, now, items);
    s.(pending := ResolvedPending(v, s.nextId),
       timer := TimerFor(v.LeastWait(v.pending.Keys)),
       nextId := NextIdAfter(v, s.nextId),
       sent := s.sent + NewRequests(v, s.nextId),
       inFlight := s.inFlight + NewRequests(v, s.nextId).Keys)
  }

  function StillPending(pending: map<Page, int>, id: int): map<Page, int> {
    map p | p in pending && pending[p] != id :: pending[p]
  }

  function Failed(page: WebPage): WebPage {
    page.(pendingTill := 0, failed := true)
  }

  /** The pages that waited for the answered request are no longer pending: those that still were have failed. */
  function SettledPages(pages: map<Page, WebPage>, pending: map<Page, int>, id: int): map<Page, WebPage> {
    map p | p in pages ::
      if p in pending && pending[p] == id && pages[p].pendingTill > 0 then Failed(pages[p]) else pages[p]
  }

  /** requestWebPageDelayed; `remaining` is what is left of an active timer. */
  function RequestDelayed(s: State, page: Page, now: int, remaining: int): State {
    if page !in s.pages || s.pages[page].failed || s.pages[page].pendingTill == 0 then s
    else
      var left := (s.pages[page].pendingTill - now) * 1000;
      s.(pending := if page in s.pending then s.pending else s.pending[page := 0],
         timer := if s.timer.None? || left <= remaining then Some((if left < 0 then 0 else left) + 1) else s.timer)
  }

  function ClearRequest(s: State, page: Page): State {
    var pending := s.pending - {page};
    s.(pending := pending, timer := if pending == map[] then None else s.timer)
  }

  function ClearRequests(s: State): State {
    s.(pending := map[], timer := None)
  }

  // ---- What an answer says of pages ----

  datatype Fields = Empty | Fields(pendingTill: int, hasUrl: bool)

  /** A page that the server describes, at a time when so much is left of an active timer. */
  datatype Change = Change(page: Page, fields: Fields, now: int, remaining: int)

  const UNKNOWN := WebPage(0, false, false)

  function Known(s: State, page: Page): WebPage {
    if page in s.pages then s.pages[page] else UNKNOWN
  }

  /** WebPageData::applyChanges leaves the page as it is. */
  predicate Ignored(was: WebPage, pendingTill: int) {
    && pendingTill != 0
    && (was.hasUrl || was.failed)
    && (was.pendingTill == 0 || was.pendingTill == pendingTill || pendingTill < -1)
  }

  /** A page that was pending is not any more, which takes it out of those asked for. */
  predicate Clears(s: State, change: Change, page: Page) {
    && change.page == page && change.fields.Fields?
    && Till(s.pages, page) > 0 && change.fields.pendingTill <= 0
    && !Ignored(Known(s, page), change.fields.pendingTill)
  }

  /** applyChanges, with the request that it clears. */
  function Applied(s: State, page: Page, pendingTill: int, hasUrl: bool): State {
    var was := Known(s, page);
    if Ignored(was, pendingTill) then s.(pages := s.pages[page := was])
    else
      var s' := if was.pendingTill > 0 && pendingTill <= 0 then ClearRequest(s, page) else s;
      s'.(pages := s'.pages[page := WebPage(pendingTill, was.failed, hasUrl)])
  }

  /** processWebpage. */
  function Processed(s: State, change: Change): State {
    var was := Known(s, change.page);
    match change.fields
    case Empty => s.(pages := s.pages[change.page := if was.pendingTill > 0 then Failed(was) else was])
    case Fields(pendingTill, hasUrl) =>
      var s' := Applied(s, change.page, pendingTill, hasUrl);
      if was.pendingTill == 0 && pendingTill > 0 then RequestDelayed(s', change.page, change.now, change.remaining)
      else s'
  }

  /** ApplyChanges: the pages that the answer shows, one after another. */
  function ApplyChanges(s: State, changes: seq<Change>): State
    decreases |changes|
  {
    if changes == [] then s
    else Processed(ApplyChanges(s, changes[..|changes| - 1]), changes[|changes| - 1])
  }

  /** One of the changes takes the page out of those asked for. */
  predicate Cleared(s: State, changes: seq<Change>, page: Page)
    decreases |changes|
  {
    changes != []
    && var before := changes[..|changes| - 1];
    Cleared(s, before, page) || Clears(ApplyChanges(s, before), changes[|changes| - 1], page)
  }

  /** gotWebPages, once the changes are applied. */
  function Settled(s: State, id: int): State {
    s.(pending := StillPending(s.pending, id),
       pages := SettledPages(s.pages, s.pending, id),
       inFlight := s.inFlight - {id})
  }

  function Got(s: State, id: int, changes: seq<Change>): State {
    Settled(ApplyChanges(s, changes), id)
  }

  // ---- What a resolve achieves ----

  /** An unsent page is due, and some message shows it. */
  predicate DueNow(s: State, now: int, items: map<Page, Item>, p: Page) {
    && p in s.pending && s.pending[p] <= 0 && p in items
    && (if p in s.pages then s.pages[p].pendingTill else 0) <= now
  }

  lemma DueIs(s: State, now: int, items: map<Page, Item>, p: Page)
    ensures ViewOf(s, now, items).Due(p) <==> DueNow(s, now, items, p)
  {
  }

  /**
   * A due page gets the id of a request that is new, that went where the page's
   * message is, and that carries this message's id for this page.
   */
  lemma DuePageIsRequested(s: State, now: int, items: map<Page, Item>, p: Page)
    requires DueNow(s, now, items, p)
    ensures var s' := Resolve(s, now, items);
      && p in s'.pending && s.nextId <= s'.pending[p] < s'.nextId && s'.pending[p] in s'.inFlight
      && s'.pending[p] in s'.sent && s'.sent[s'.pending[p]].scope == items[p].scope
      && var sent := s'.sent[s'.pending[p]];
      |sent.ids| == |sent.pages|
      && exists i :: 0 <= i < |sent.pages| && sent.pages[i] == p && sent.ids[i] == items[p].msgId
  {
    var v, scope := ViewOf(s, now, items), items[p].scope;
    DueScopeIsSent(v, s.nextId, p);
    IdsMatchPages(v, scope, v.pending.Keys);
    assert v.DueIn(p, scope);
    var sent := v.RequestTo(scope);
    assert p in sent.pages;
    var i :| 0 <= i < |sent.pages| && sent.pages[i] == p;
    assert sent.ids[i] == items[p].msgId;
  }

  lemma DueScopeIsSent(v: View, nextId: int, p: Page)
    requires v.Due(p)
    ensures var id := ResolvedPending(v, nextId)[p];
      nextId <= id < NextIdAfter(v, nextId) && id in NewRequests(v, nextId)
        && NewRequests(v, nextId)[id] == v.RequestTo(v.items[p].scope)
  {
    var scope := v.items[p].scope;
    assert v.DueIn(p, scope);
    SomeIds(v, scope, p);
    var channels, first := v.Channels(v.pending.Keys), FirstChannelId(v, nextId);
    ChannelRequestIds(v, channels, first, nextId);
    if scope.InChannel? {
      assert scope.channel in channels;
      ChannelRequestAt(v, channels, first, scope.channel);
    }
    hide View.DueIds, View.DuePages, View.Channels, ChannelRequests, RequestIds;
  }

  /** Any other page keeps its entry: one already sent keeps its request, one not due stays unsent. */
  lemma OtherPagesAreUntouched(s: State, now: int, items: map<Page, Item>, p: Page)
    requires p in s.pending && !DueNow(s, now, items, p)
    ensures p in Resolve(s, now, items).pending && Resolve(s, now, items).pending[p] == s.pending[p]
    ensures Resolve(s, now, items).pages == s.pages
  {
  }

  /** A new request carries exactly the due pages of its scope, and no scope gets two. */
  lemma RequestsAreForDuePages(s: State, now: int, items: map<Page, Item>, id: int, p: Page)
    requires s.nextId <= id < Resolve(s, now, items).nextId
    ensures var s' := Resolve(s, now, items);
      && id in s'.sent && s'.sent[id].pages != []
      && (p in s'.sent[id].pages <==> DueNow(s, now, items, p) && items[p].scope == s'.sent[id].scope)
      && (p in s'.sent[id].pages ==> s'.pending[p] == id)
  {
    var v, s' := ViewOf(s, now, items), Resolve(s, now, items);
    NewRequestIsFor(v, s.nextId, id);
    var scope := NewRequests(v, s.nextId)[id].scope;
    IdsMatchPages(v, scope, v.pending.Keys);
  }

  lemma NewRequestIsFor(v: View, nextId: int, id: int)
    requires nextId <= id < NextIdAfter(v, nextId)
    ensures id in NewRequests(v, nextId)
    ensures var sent := NewRequests(v, nextId)[id];
      && sent == v.RequestTo(sent.scope) && sent.ids != []
      && (sent.scope.InChannel? ==> sent.scope.channel in v.Channels(v.pending.Keys))
      && RequestIdFor(v, nextId, sent.scope) == id
  {
    var channels, first := v.Channels(v.pending.Keys), FirstChannelId(v, nextId);
    ChannelRequestIds(v, channels, first, id);
    if id >= first {
      var c := ChannelOf(channels, first, id);
      ChannelOfId(channels, first, id);
      ChannelRequestAt(v, channels, first, c);
      var p :| p in v.pending.Keys && v.DueIn(p, InChannel(c));
      SomeIds(v, InChannel(c), p);
    }
    hide View.DueIds, View.DuePages, View.Channels, ChannelRequests, RequestIds, ChannelOf;
  }

  /** The wait for the timer is the least one of a page not due yet: a bound for all, and attained. */
  lemma {:induction false} LeastWaitIsLeast(v: View, keys: set<Page>)
    ensures forall p :: p in keys && v.Unsent(p) && Till(v.pages, p) > v.now ==>
      v.LeastWait(keys) <= Till(v.pages, p) - v.now
    ensures v.LeastWait(keys) < INT_MAX ==>
      exists p :: p in keys && v.Unsent(p) && v.LeastWait(keys) == Till(v.pages, p) - v.now > 0
    decreases |keys|
  {
    if keys != {} {
      var p := Least(keys);
      LeastWaitIsLeast(v, keys - {p});
      LeastWaitBound(v, keys - {p});
      if v.LeastWait(keys) < INT_MAX && v.LeastWait(keys) == v.LeastWait(keys - {p}) {
        var q :| q in keys - {p} && v.Unsent(q) && v.LeastWait(keys - {p}) == Till(v.pages, q) - v.now > 0;
        assert q in keys;
      }
    }
  }

  // ---- Whole runs ----

  /** A failed request: there is no handler, so its pages keep waiting for it. */
  function Lost(s: State, id: int): State {
    s.(inFlight := s.inFlight - {id}, failed := s.failed + {id})
  }

  datatype Event =
    | DoPage(page: Page, data: WebPage)
    | DoProcess(change: Change)
    | DoDelay(page: Page, now: int, remaining: int)
    | DoClear(page: Page)
    | DoClearAll
    | DoTimer(now: int, items: map<Page, Item>)
    | DoAnswer(id: int, changes: seq<Change>)
    | DoFail(id: int)

  function Step(s: State, event: Event): State {
    match event
    case DoPage(page, data) => s.(pages := s.pages[page := data])
    case DoProcess(change) => Processed(s, change)
    case DoDelay(page, now, remaining) => RequestDelayed(s, page, now, remaining)
    case DoClear(page) => ClearRequest(s, page)
    case DoClearAll => ClearRequests(s)
    case DoTimer(now, items) => if s.timer.Some? then Resolve(s, now, items) else s
    case DoAnswer(id, changes) => if id in s.inFlight then Got(s, id, changes) else s
    case DoFail(id) => if id in s.inFlight then Lost(s, id) else s
  }

  function Run(events: seq<Event>): State
    decreases |events|
  {
    if events == [] then INITIAL else Step(Run(events[..|events| - 1]), events[|events| - 1])
  }

  /** A page waits for a request that was made for it and that is on the network, unless it failed. */
  ghost predicate Waits(s: State, p: Page)
    requires p in s.pending
  {
    var id := s.pending[p];
    id in s.sent && p in s.sent[id].pages && (id in s.inFlight || id in s.failed)
  }

  ghost predicate IdsAreUsed(s: State) {
    && s.nextId > 0
    && (forall id :: id in s.sent ==> 0 < id < s.nextId)
    && s.inFlight <= s.sent.Keys && s.failed <= s.sent.Keys && s.inFlight !! s.failed
  }

  ghost predicate Inv(s: State) {
    IdsAreUsed(s) && forall p :: p in s.pending ==> s.pending[p] == 0 || (s.pending[p] > 0 && Waits(s, p))
  }

  lemma NewIds(v: View, nextId: int, id: int)
    ensures id in NewRequests(v, nextId) <==> nextId <= id < NextIdAfter(v, nextId)
  {
    ChannelRequestIds(v, v.Channels(v.pending.Keys), FirstChannelId(v, nextId), id);
    hide View.DueIds, View.DuePages, View.Channels, ChannelRequests;
  }

  lemma SendingKeepsIds(s: State, requests: map<int, Sent>, nextId: int, s': State)
    requires IdsAreUsed(s) && s.nextId <= nextId && forall id :: id in requests <==> s.nextId <= id < nextId
    requires s'.nextId == nextId && s'.sent == s.sent + requests && s'.inFlight == s.inFlight + requests.Keys
      && s'.failed == s.failed
    ensures IdsAreUsed(s') && forall id :: id in s.sent ==> id in s'.sent && s'.sent[id] == s.sent[id]
  {
  }

  lemma ResolveKeepsIds(s: State, now: int, items: map<Page, Item>)
    requires IdsAreUsed(s)
    ensures var s' := Resolve(s, now, items);
      && IdsAreUsed(s') && s'.failed == s.failed && s.inFlight <= s'.inFlight
      && forall id :: id in s.sent ==> id in s'.sent && s'.sent[id] == s.sent[id]
  {
    var v := ViewOf(s, now, items);
    var requests, nextId := NewRequests(v, s.nextId), NextIdAfter(v, s.nextId);
    assert nextId >= s.nextId;
    hide NewRequests, NextIdAfter, ResolvedPending, View.LeastWait, IdsAreUsed;
    forall id ensures id in requests <==> s.nextId <= id < nextId {
      NewIds(v, s.nextId, id);
    }
    SendingKeepsIds(s, requests, nextId, Resolve(s, now, items));
  }

  lemma ResolveKeeps(s: State, now: int, items: map<Page, Item>)
    requires Inv(s)
    ensures Inv(Resolve(s, now, items))
  {
    ResolveKeepsIds(s, now, items);
    var s', v := Resolve(s, now, items), ViewOf(s, now, items);
    assert s'.pending.Keys == s.pending.Keys;
    hide Resolve, IdsAreUsed, View.Due;
    forall p | p in s'.pending ensures s'.pending[p] == 0 || (s'.pending[p] > 0 && Waits(s', p)) {
      if v.Due(p) {
        assert s'.nextId > 0 && s.nextId > 0 by { assert IdsAreUsed(s) && IdsAreUsed(s'); UsedIds(s); UsedIds(s'); }
        DuePageIsRequested(s, now, items, p);
      } else {
        OtherPagesAreUntouched(s, now, items, p);
      }
    }
  }

  lemma UsedIds(s: State)
    requires IdsAreUsed(s)
    ensures s.nextId > 0
  {
  }

  /** Fewer pages wait, or more of them for no request yet. */
  ghost predicate OnlyUnsentAdded(s: State, s': State) {
    && s'.nextId == s.nextId && s'.sent == s.sent && s'.failed == s.failed
    && forall p :: p in s'.pending ==> s'.pending[p] == 0 || (p in s.pending && s'.pending[p] == s.pending[p])
  }

  lemma ProcessedOnlyAdds(s: State, change: Change)
    ensures OnlyUnsentAdded(s, Processed(s, change)) && Processed(s, change).inFlight == s.inFlight
  {
  }

  lemma {:induction false} ChangesOnlyAdd(s: State, changes: seq<Change>)
    ensures OnlyUnsentAdded(s, ApplyChanges(s, changes)) && ApplyChanges(s, changes).inFlight == s.inFlight
    decreases |changes|
  {
    hide Processed;
    if changes != [] {
      ChangesOnlyAdd(s, changes[..|changes| - 1]);
      ProcessedOnlyAdds(ApplyChanges(s, changes[..|changes| - 1]), changes[|changes| - 1]);
    }
  }

  lemma AddingKeeps(s: State, s': State)
    requires Inv(s) && OnlyUnsentAdded(s, s') && s'.inFlight == s.inFlight
    ensures Inv(s')
  {
  }

  lemma SettlingKeeps(s: State, id: int)
    requires Inv(s)
    ensures Inv(Settled(s, id))
  {
  }

  lemma StepKeeps(s: State, event: Event)
    requires Inv(s)
    ensures Inv(Step(s, event))
  {
    match event
    case DoTimer(now, items) =>
      if s.timer.Some? { ResolveKeeps(s, now, items); }
      hide Resolve, Inv;
    case DoProcess(change) =>
      ProcessedOnlyAdds(s, change);
      hide Processed, Inv;
      AddingKeeps(s, Processed(s, change));
    case DoAnswer(id, changes) =>
      ChangesOnlyAdd(s, changes);
      hide ApplyChanges, Settled, Inv;
      AddingKeeps(s, ApplyChanges(s, changes));
      SettlingKeeps(ApplyChanges(s, changes), id);
    case _ =>
      hide Resolve, Processed, Got;
      var s' := Step(s, event);
      assert IdsAreUsed(s');
      hide IdsAreUsed;
  }

  /** No reachable state holds a temporary id, and every id held is that of a request made for the page. */
  lemma {:induction false} EveryRunKeeps(events: seq<Event>)
    ensures Inv(Run(events))
    decreases |events|
  {
    hide Inv, Step;
    if events == [] {
      InitialKeeps();
    } else {
      EveryRunKeeps(events[..|events| - 1]);
      StepKeeps(Run(events[..|events| - 1]), events[|events| - 1]);
    }
  }

  lemma InitialKeeps()
    ensures Inv(INITIAL)
  {
  }

  /** A change keeps a page waiting as it did, with data that no other page's change touches, or clears it. */
  lemma ProcessedKeepsOrClears(s: State, change: Change, p: Page)
    requires p in s.pending
    ensures var s' := Processed(s, change);
      && (p in s'.pending && s'.pending[p] == s.pending[p] <==> !Clears(s, change, p))
      && (Clears(s, change, p) ==> p !in s'.pending)
      && (change.page != p ==> Known(s', p) == Known(s, p))
  {
  }

  lemma {:induction false} UnclearedStays(s: State, changes: seq<Change>, p: Page)
    requires p in s.pending && !Cleared(s, changes, p)
    ensures p in ApplyChanges(s, changes).pending && ApplyChanges(s, changes).pending[p] == s.pending[p]
    decreases |changes|
  {
    hide Processed, Clears;
    if changes != [] {
      UnclearedStays(s, changes[..|changes| - 1], p);
      ProcessedKeepsOrClears(ApplyChanges(s, changes[..|changes| - 1]), changes[|changes| - 1], p);
    }
  }

  /** A page that was cleared may be asked for again, but waits for no request then. */
  lemma {:induction false} ClearedWaitsForNone(s: State, changes: seq<Change>, p: Page)
    requires p in s.pending && Cleared(s, changes, p)
    ensures var s' := ApplyChanges(s, changes); p in s'.pending ==> s'.pending[p] == 0
    decreases |changes|
  {
    hide Processed, Clears;
    var before, last := ApplyChanges(s, changes[..|changes| - 1]), changes[|changes| - 1];
    ProcessedOnlyAdds(before, last);
    if Cleared(s, changes[..|changes| - 1], p) {
      ClearedWaitsForNone(s, changes[..|changes| - 1], p);
    } else {
      UnclearedStays(s, changes[..|changes| - 1], p);
      ProcessedKeepsOrClears(before, last, p);
    }
  }

  ghost predicate NotAmong(changes: seq<Change>, p: Page) {
    forall i :: 0 <= i < |changes| ==> changes[i].page != p
  }

  lemma {:induction false} UnchangedIsUncleared(s: State, changes: seq<Change>, p: Page)
    requires NotAmong(changes, p)
    ensures !Cleared(s, changes, p) && Known(ApplyChanges(s, changes), p) == Known(s, p)
    decreases |changes|
  {
    hide Processed;
    if changes != [] {
      UnchangedIsUncleared(s, changes[..|changes| - 1], p);
      ProcessedTouchesOne(ApplyChanges(s, changes[..|changes| - 1]), changes[|changes| - 1], p);
    }
  }

  lemma ProcessedTouchesOne(s: State, change: Change, p: Page)
    requires change.page != p
    ensures Known(Processed(s, change), p) == Known(s, p)
  {
  }

  /**
   * After an answer no page waits for its request any more, and each that did was
   * among the pages of that request and is settled.  A page that waits for another
   * request goes on waiting for it if and only if nothing in the answer clears it.
   */
  lemma AnswerSettlesItsPages(events: seq<Event>, id: int, changes: seq<Change>, p: Page)
    requires var s := Run(events); id in s.inFlight && p in s.pending
    ensures var s := Run(events); var s' := Got(s, id, changes);
      && s'.inFlight == s.inFlight - {id} && (p in s'.pending ==> s'.pending[p] != id)
      && (s.pending[p] == id ==> id in s.sent && p in s.sent[id].pages)
      && (s.pending[p] == id && !Cleared(s, changes, p) ==> p !in s'.pending && Till(s'.pages, p) <= 0)
      && (s.pending[p] != 0 ==>
          (p in s'.pending && s'.pending[p] == s.pending[p] <==> s.pending[p] != id && !Cleared(s, changes, p)))
  {
    ChangesOnlyAdd(Run(events), changes);
    EveryRunKeeps(events);
    var s := Run(events);
    hide Run, ApplyChanges, Cleared;
    assert id > 0;
    hide IdsAreUsed;
    if Cleared(s, changes, p) {
      ClearedWaitsForNone(s, changes, p);
    } else {
      UnclearedStays(s, changes, p);
    }
  }

  /** An answer that does not show a page leaves it as it was, unless it waited for this answer. */
  lemma AnswerLeavesOthers(s: State, id: int, changes: seq<Change>, p: Page)
    requires NotAmong(changes, p) && p in s.pending && s.pending[p] != id
    ensures var s' := Got(s, id, changes);
      p in s'.pending && s'.pending[p] == s.pending[p] && Known(s', p) == Known(s, p)
  {
    UnchangedIsUncleared(s, changes, p);
    UnclearedStays(s, changes, p);
    hide ApplyChanges, Cleared;
  }

  /** An answer that does not show a page that waited for it leaves the page failed, if it was still pending. */
  lemma UnshownFails(s: State, id: nat, changes: seq<Change>, p: Page)
    requires NotAmong(changes, p) && p in s.pending && s.pending[p] == id && p in s.pages
    ensures var was, s' := s.pages[p], Got(s, id, changes);
      p !in s'.pending && p in s'.pages
      && s'.pages[p] == if was.pendingTill > 0 then WebPage(0, true, was.hasUrl) else was
  {
    UnchangedIsUncleared(s, changes, p);
    UnclearedStays(s, changes, p);
    KnownStays(s, changes, p);
    hide ApplyChanges, Cleared;
  }

  lemma {:induction false} KnownStays(s: State, changes: seq<Change>, p: Page)
    requires p in s.pages
    ensures p in ApplyChanges(s, changes).pages
    decreases |changes|
  {
    hide Processed;
    if changes != [] {
      KnownStays(s, changes[..|changes| - 1], p);
      KnownStaysOnce(ApplyChanges(s, changes[..|changes| - 1]), changes[|changes| - 1], p);
    }
  }

  lemma KnownStaysOnce(s: State, change: Change, p: Page)
    requires p in s.pages
    ensures p in Processed(s, change).pages
  {
  }

  /**
   * A page that the server describes as empty has failed if it was pending.  Any other
   * description is taken over unless a page that has an address or has failed would be pending
   * anew, as long as before, or by a mark of no time; then a page that is not pending any more
   * is asked for no longer, and one that is pending now is asked for unless it has failed.
   */
  lemma DescribedIs(s: State, change: Change)
    ensures var p, s' := change.page, Processed(s, change);
      var was := if p in s.pages then s.pages[p] else WebPage(0, false, false);
      && p in s'.pages
      && match change.fields
         case Empty =>
           && s'.pending == s.pending && s'.timer == s.timer
           && s'.pages[p] == if was.pendingTill > 0 then WebPage(0, true, was.hasUrl) else was
         case Fields(till, hasUrl) =>
           if till != 0 && (was.hasUrl || was.failed)
             && (was.pendingTill == 0 || was.pendingTill == till || till < -1)
           then s'.pages[p] == was && s'.pending == s.pending && s'.timer == s.timer
           else
             && s'.pages[p] == WebPage(till, was.failed, hasUrl)
             && (p in s'.pending <==>
                  if was.pendingTill > 0 && till <= 0 then false
                  else p in s.pending || (was.pendingTill == 0 && till > 0 && !was.failed))
             && (was.pendingTill == 0 && till > 0 ==>
                  var wait := (till - change.now) * 1000;
                  && s'.timer.Some?
                  && (if s.timer.Some? && change.remaining < wait then s'.timer == s.timer
                      else s'.timer.value == (if wait < 0 then 0 else wait) + 1))
  {
    var p, was := change.page, Known(s, change.page);
    if change.fields.Fields? {
      var s1 := Applied(s, p, change.fields.pendingTill, change.fields.hasUrl);
      assert Ignored(was, change.fields.pendingTill) ==> s1 == s.(pages := s.pages[p := was]);
      assert Processed(s, change).pages == s1.pages;
      if was.pendingTill == 0 && change.fields.pendingTill > 0 {
        assert s1.timer == s.timer && s1.pending == s.pending;
        RequestStartsTimer(s1, p, change.now, change.remaining);
      }
    }
  }

  // ---- The timer ----

  function Max0(x: int): int {
    if x < 0 then 0 else x
  }

  /** A page that is to be asked for: it is known, has not failed, and is said to be pending. */
  predicate Wanted(s: State, page: Page) {
    page in s.pages && !s.pages[page].failed && s.pages[page].pendingTill != 0
  }

  /**
   * A wanted page is pending after the call and the timer is active: it is set to just
   * after the page is due unless it goes off sooner.  Of any other page nothing changes.
   */
  lemma RequestStartsTimer(s: State, page: Page, now: int, remaining: int)
    ensures var s', wait := RequestDelayed(s, page, now, remaining), (Till(s.pages, page) - now) * 1000;
      if Wanted(s, page) then
        && page in s'.pending && s'.pending[page] == (if page in s.pending then s.pending[page] else 0)
        && (forall p :: p != page ==> (p in s'.pending <==> p in s.pending))
        && (forall p :: p in s.pending ==> s'.pending[p] == s.pending[p])
        && s'.timer.Some?
        && (if s.timer.Some? && remaining < wait then s'.timer == s.timer else s'.timer.value == Max0(wait) + 1)
      else s' == s
    ensures RequestDelayed(s, page, now, remaining).pages == s.pages
  {
  }

  /** A cleared page is asked for no longer; the others are as before, and the timer stops with the last one. */
  lemma ClearingStopsTimer(s: State, page: Page, p: Page)
    ensures var s' := ClearRequest(s, page);
      && (p in s'.pending <==> p in s.pending && p != page)
      && (p in s'.pending ==> s'.pending[p] == s.pending[p])
      && s'.timer == (if forall q :: q in s.pending ==> q == page then None else s.timer)
      && s'.pages == s.pages && s'.inFlight == s.inFlight
    ensures var s' := ClearRequests(s); p !in s'.pending && s'.timer == None && s'.inFlight == s.inFlight
  {
    if s.pending - {page} != map[] {
      var q :| q in s.pending - {page};
      assert q in s.pending && q != page;
    } else {
      assert forall q :: q in s.pending && q != page ==> q in s.pending - {page};
    }
  }

  /** A page that is not sent and not due yet. */
  predicate Waiting(s: State, now: int, p: Page) {
    p in s.pending && s.pending[p] <= 0 && 0 < Till(s.pages, p) - now < INT_MAX
  }

  /**
   * After a resolve the timer is active if and only if a page waits that is not due yet.  It
   * then goes off when the first of them is due, or after a day if that is sooner.
   */
  lemma ResolveSetsTimer(s: State, now: int, items: map<Page, Item>)
    requires Inv(s)
    ensures var s' := Resolve(s, now, items);
      && (s'.timer.Some? <==> exists p :: Waiting(s', now, p))
      && (forall p :: Waiting(s', now, p) ==> s'.timer.value <= 1000 * (Till(s'.pages, p) - now))
      && (s'.timer.Some? ==> s'.timer.value <= 1000 * 86400)
      && (s'.timer.Some? && s'.timer.value < 1000 * 86400 ==>
           exists p :: Waiting(s', now, p) && s'.timer.value == 1000 * (Till(s'.pages, p) - now))
  {
    var v, s' := ViewOf(s, now, items), Resolve(s, now, items);
    var wait := v.LeastWait(v.pending.Keys);
    LeastWaitIsLeast(v, v.pending.Keys);
    LeastWaitBound(v, v.pending.Keys);
    forall p ensures Waiting(s', now, p) <==> Waiting(s, now, p) {
      WaitingStays(s, now, items, p);
    }
    hide Resolve, Inv, View.LeastWait;
    assert s'.timer == TimerFor(wait) && s'.pages == s.pages by { ResolveTimer(s, now, items); }
    if wait < INT_MAX {
      var p :| p in v.pending.Keys && v.Unsent(p) && wait == Till(v.pages, p) - v.now > 0;
      assert Waiting(s, now, p);
    }
  }

  lemma ResolveTimer(s: State, now: int, items: map<Page, Item>)
    ensures var v := ViewOf(s, now, items);
      Resolve(s, now, items).timer == TimerFor(v.LeastWait(v.pending.Keys)) && Resolve(s, now, items).pages == s.pages
  {
  }

  lemma WaitingStays(s: State, now: int, items: map<Page, Item>, p: Page)
    requires Inv(s)
    ensures Waiting(Resolve(s, now, items), now, p) <==> Waiting(s, now, p)
  {
    if p in s.pending {
      if DueNow(s, now, items, p) {
        DuePageIsRequested(s, now, items, p);
      } else {
        OtherPagesAreUntouched(s, now, items, p);
      }
    }
    ResolveTimer(s, now, items);
    hide Resolve;
  }

  /** While a page waits for no request, the timer is active. */
  ghost predicate Watched(s: State) {
    forall p :: p in s.pending && s.pending[p] == 0 ==> s.timer.Some?
  }

  /** Every page that is due and unsent is shown by some message, and no page is due absurdly late. */
  ghost predicate FindsAll(s: State, now: int, items: map<Page, Item>) {
    forall p :: p in s.pending && s.pending[p] == 0 ==>
      if Till(s.pages, p) <= now then p in items else Till(s.pages, p) - now < INT_MAX
  }

  lemma ProcessedIsWatched(s: State, change: Change)
    requires Watched(s)
    ensures Watched(Processed(s, change))
  {
  }

  lemma {:induction false} ChangesAreWatched(s: State, changes: seq<Change>)
    requires Watched(s)
    ensures Watched(ApplyChanges(s, changes))
    decreases |changes|
  {
    hide Processed;
    if changes != [] {
      ChangesAreWatched(s, changes[..|changes| - 1]);
      ProcessedIsWatched(ApplyChanges(s, changes[..|changes| - 1]), changes[|changes| - 1]);
    }
  }

  /** A resolve keeps watch over the pages that it leaves unsent if and only if one is not due, or none is left. */
  lemma ResolveWatchesIff(s: State, now: int, items: map<Page, Item>)
    requires Inv(s)
    ensures Watched(Resolve(s, now, items))
      <==> FindsAll(s, now, items) || exists p :: Waiting(s, now, p)
  {
    hide Inv, Resolve, DueNow;
    var s' := Resolve(s, now, items);
    ResolveSetsTimer(s, now, items);
    PendingAreCounted(s);
    forall p ensures Waiting(s', now, p) <==> Waiting(s, now, p) {
      WaitingStays(s, now, items, p);
    }
    forall p ensures p in s'.pending && s'.pending[p] == 0 <==>
      p in s.pending && s.pending[p] == 0 && !DueNow(s, now, items, p)
    {
      ResolveLeaves(s, now, items, p);
    }
    WatchedAfter(s, s', now, items);
  }

  lemma PendingAreCounted(s: State)
    requires Inv(s)
    ensures forall p :: p in s.pending ==> s.pending[p] >= 0
  {
  }

  lemma ResolveLeaves(s: State, now: int, items: map<Page, Item>, p: Page)
    requires Inv(s)
    ensures var s' := Resolve(s, now, items);
      p in s'.pending && s'.pending[p] == 0 <==> p in s.pending && s.pending[p] == 0 && !DueNow(s, now, items, p)
  {
    if DueNow(s, now, items, p) {
      DuePageIsRequested(s, now, items, p);
    } else if p in s.pending {
      OtherPagesAreUntouched(s, now, items, p);
    } else {
      ResolveAddsNone(s, now, items, p);
    }
    hide Resolve;
  }

  lemma WatchedAfter(s: State, s': State, now: int, items: map<Page, Item>)
    requires forall p :: p in s.pending ==> s.pending[p] >= 0
    requires s'.timer.Some? <==> exists p :: Waiting(s, now, p)
    requires forall p :: p in s'.pending && s'.pending[p] == 0 <==>
      p in s.pending && s.pending[p] == 0 && !DueNow(s, now, items, p)
    ensures Watched(s') <==> FindsAll(s, now, items) || exists p :: Waiting(s, now, p)
  {
    if s'.timer.None? {
      forall p | p in s.pending && s.pending[p] == 0
        ensures !DueNow(s, now, items, p) ==> p in s'.pending && s'.pending[p] == 0
        ensures DueNow(s, now, items, p) <==> Till(s.pages, p) <= now && p in items
        ensures !Waiting(s, now, p)
      {
      }
      hide Waiting, DueNow, Till;
    }
  }

  lemma ResolveAddsNone(s: State, now: int, items: map<Page, Item>, p: Page)
    ensures p in Resolve(s, now, items).pending ==> p in s.pending
  {
  }

  ghost predicate FindsAllAlong(events: seq<Event>)
    decreases |events|
  {
    events != [] ==>
      var before, last := events[..|events| - 1], events[|events| - 1];
      FindsAllAlong(before) && (last.DoTimer? ==> FindsAll(Run(before), last.now, last.items))
  }

  lemma StepIsWatched(s: State, event: Event)
    requires Inv(s) && Watched(s) && (event.DoTimer? ==> FindsAll(s, event.now, event.items))
    ensures Watched(Step(s, event))
  {
    match event
    case DoTimer(now, items) => hide Resolve; if s.timer.Some? { ResolveWatchesIff(s, now, items); }
    case DoProcess(change) => hide Processed; ProcessedIsWatched(s, change);
    case DoAnswer(id, changes) => hide ApplyChanges; ChangesAreWatched(s, changes);
    case _ => hide Resolve, Processed, Got, Inv;
  }

  /**
   * In every run in which each timer finds the messages of the pages that are due, no
   * unsent page is ever left unwatched.
   */
  lemma {:induction false} UnsentAreWatched(events: seq<Event>)
    requires FindsAllAlong(events)
    ensures Watched(Run(events))
    decreases |events|
  {
    hide Inv, Step, Watched, FindsAll;
    if events == [] {
      NothingIsWatched();
    } else {
      EveryRunKeeps(events[..|events| - 1]);
      UnsentAreWatched(events[..|events| - 1]);
      StepIsWatched(Run(events[..|events| - 1]), events[|events| - 1]);
    }
  }

  lemma NothingIsWatched()
    ensures Watched(INITIAL)
  {
  }

  /** A page that no message shows when it is due. */
  const UNSHOWN := [DoPage(1, WebPage(100, false, false)), DoDelay(1, 99, 0), DoTimer(100, map[])]

  /** It is neither asked for nor is there a timer to try again. */
  lemma UnshownPageIsStuck()
    ensures var s := Run(UNSHOWN); s.pending == map[1 := 0] && s.timer == None && s.inFlight == {}
  {
    var e := UNSHOWN;
    assert e[..2][..1] == e[..1] && e[..1][..0] == [];
    var s1 := INITIAL.(pages := map[1 := WebPage(100, false, false)]);
    var s2 := s1.(pending := map[1 := 0], timer := Some(1001));
    assert Run(e[..1]) == Step(INITIAL, e[0]) == s1 && Run(e[..2]) == Step(s1, e[1]) == s2;
    assert Run(e) == Resolve(s2, 100, map[]);
    hide Run;
    UnshownIsNotSent(s2);
  }

  lemma UnshownIsNotSent(s: State)
    requires s.pending == map[1 := 0] && s.pages == map[1 := WebPage(100, false, false)]
    ensures var s' := Resolve(s, 100, map[]);
      s'.pending == s.pending && s'.timer == None && s'.inFlight == s.inFlight
  {
    var v, s' := ViewOf(s, 100, map[]), Resolve(s, 100, map[]);
    assert v.Channels(v.pending.Keys) == {};
    assert v.DueIds(NotChannel, v.pending.Keys) == [];
    assert !v.Due(1);
    assert v.LeastWait(v.pending.Keys) == INT_MAX;
  }

  // ---- A failed request ----

  /** The event takes the page out of those asked for, whatever it waits for. */
  predicate TakesOut(s: State, event: Event, p: Page) {
    match event
    case DoClear(page) => page == p
    case DoClearAll => true
    case DoProcess(change) => Clears(s, change, p)
    case DoAnswer(id, changes) => id in s.inFlight && Cleared(s, changes, p)
    case _ => false
  }

  /** A request that fails is off the network, and of its pages nothing changes. */
  lemma FailureSettlesNothing(s: State, id: int)
    requires id in s.inFlight
    ensures var s' := Step(s, DoFail(id));
      s'.inFlight == s.inFlight - {id} && s'.pending == s.pending && s'.pages == s.pages && s'.timer == s.timer
      && id in s'.failed
  {
  }

  /** In every run a page goes on waiting for a request that failed until it is cleared, and is not asked for again. */
  lemma FailedPageWaitsIff(events: seq<Event>, event: Event, p: Page)
    requires var s := Run(events); p in s.pending && s.pending[p] in s.failed
    ensures var s := Run(events); var s' := Step(s, event);
      (p in s'.pending && s'.pending[p] == s.pending[p]) <==> !TakesOut(s, event, p)
  {
    EveryRunKeeps(events);
    var s := Run(events);
    assert s.pending[p] > 0 && s.pending[p] !in s.inFlight;
    hide Run, Inv;
    match event
    case DoTimer(now, items) => if s.timer.Some? { OtherPagesAreUntouched(s, now, items, p); } hide Resolve;
    case DoProcess(change) => ProcessedKeepsOrClears(s, change, p); hide Processed;
    case DoAnswer(id, changes) =>
      hide ApplyChanges, Cleared;
      if id in s.inFlight {
        if Cleared(s, changes, p) { ClearedWaitsForNone(s, changes, p); } else { UnclearedStays(s, changes, p); }
      }
    case _ => hide Resolve, Processed, Got;
  }

  // ---- The object that the source updates in place ----

  class ApiWrap {
    var webPagesPending: map<Page, int>
    var pages: map<Page, WebPage>
    var webPagesTimer: Option<int>
    var nextRequestId: int
    ghost var sent: map<int, Sent>
    ghost var inFlight: set<int>
    ghost var failed: set<int>

    ghost function Abs(): State
      reads this
    {
      State(webPagesPending, pages, webPagesTimer, nextRequestId, sent, inFlight, failed)
    }

    constructor ()
      ensures Abs() == INITIAL
    {
      webPagesPending, pages, webPagesTimer, nextRequestId := map[], map[], None, 1;
      sent, inFlight, failed := map[], {}, {};
    }

    method RequestWebPageDelayed(page: Page, now: int, remaining: int)
      requires page in pages
      modifies `webPagesPending, `webPagesTimer
      ensures Abs() == RequestDelayed(old(Abs()), page, now, remaining)
    {
      if pages[page].failed || pages[page].pendingTill == 0 {
        return;
      }
      if page !in webPagesPending {
        webPagesPending := webPagesPending[page := 0];
      }
      var left := (pages[page].pendingTill - now) * 1000;
      if webPagesTimer.None? || left <= remaining {
        webPagesTimer := Some((if left < 0 then 0 else left) + 1);
      }
    }

    method ClearWebPageRequest(page: Page)
      modifies `webPagesPending, `webPagesTimer
      ensures Abs() == ClearRequest(old(Abs()), page)
    {
      webPagesPending := webPagesPending - {page};
      if webPagesPending == map[] && webPagesTimer.Some? {
        webPagesTimer := None;
      }
    }

    method ClearWebPageRequests()
      modifies `webPagesPending, `webPagesTimer
      ensures Abs() == ClearRequests(old(Abs()))
    {
      webPagesPending := map[];
      webPagesTimer := None;
    }

    /** resolveWebPages, called by the timer. */
    method ResolveWebPages(now: int, items: map<Page, Item>)
      requires Inv(Abs())
      modifies this
      ensures Abs() == Resolve(old(Abs()), now, items)
    {
      hide Inv, Unresolved, Collecting, Gathered, Answers, ResolvedPending, NewRequests, NextIdAfter, Resolve,
        View.LeastWait;
      NoTemporaryIds(Abs(), now, items);
      ghost var s, v, first := Abs(), ViewOf(Abs(), now, items), nextRequestId;
      webPagesTimer := None;
      var pending, ids, byChannel, m := CollectDue(View(webPagesPending, pages, now, items));
      CollectedAtLast(v, pending, ids, byChannel, m);
      webPagesPending := pending;
      var requestId, reqsByIndex := SendRequests(v, ids, byChannel);
      webPagesPending := ReplaceTemporaryIds(v, webPagesPending, ids, byChannel, requestId, reqsByIndex, first);
      if m < INT_MAX {
        webPagesTimer := Some(Min(m, 86400) * 1000);
      }
      ResolveIs(s, now, items);
    }

    /** WebPageData::applyChanges. */
    method ApplyPage(page: Page, pendingTill: int, hasUrl: bool)
      requires page in pages
      modifies `webPagesPending, `pages, `webPagesTimer
      ensures Abs() == Applied(old(Abs()), page, pendingTill, hasUrl)
    {
      var was := pages[page];
      if pendingTill != 0 && (was.hasUrl || was.failed)
        && (was.pendingTill == 0 || was.pendingTill == pendingTill || pendingTill < -1)
      {
        return;
      }
      if was.pendingTill > 0 && pendingTill <= 0 {
        ClearWebPageRequest(page);
      }
      pages := pages[page := was.(pendingTill := pendingTill, hasUrl := hasUrl)];
    }

    /** Session::processWebpage and webpageApplyFields. */
    method ProcessWebpage(change: Change)
      modifies `webPagesPending, `pages, `webPagesTimer
      ensures Abs() == Processed(old(Abs()), change)
    {
      var page := change.page;
      if page !in pages {
        pages := pages[page := UNKNOWN];
      }
      match change.fields
      case Empty =>
        if pages[page].pendingTill > 0 {
          pages := pages[page := pages[page].(pendingTill := 0, failed := true)];
        }
      case Fields(pendingTill, hasUrl) =>
        var requestPending := pages[page].pendingTill == 0 && pendingTill > 0;
        ApplyPage(page, pendingTill, hasUrl);
        if requestPending {
          RequestWebPageDelayed(page, change.now, change.remaining);
        }
    }

    /** gotWebPages. */
    method GotWebPages(id: int, changes: seq<Change>)
      modifies `webPagesPending, `pages, `webPagesTimer, `inFlight
      ensures Abs() == Got(old(Abs()), id, changes)
    {
      for i := 0 to |changes|
        invariant Abs() == ApplyChanges(old(Abs()), changes[..i])
      {
        assert changes[..i + 1][..i] == changes[..i];
        ProcessWebpage(changes[i]);
      }
      assert changes[..|changes|] == changes;
      inFlight := inFlight - {id};
      webPagesPending, pages := SettleAnswered(webPagesPending, pages, id);
    }

    /** Send the common request, if it has any ids, and then one to each channel. */
    method SendRequests(ghost v: View, ids: seq<int>, byChannel: ByChannel)
        returns (requestId: int, reqsByIndex: seq<int>)
      requires nextRequestId > 0 && Gathered(v, webPagesPending, ids, byChannel)
      modifies `nextRequestId, `sent, `inFlight
      ensures requestId == if ids == [] then 0 else old(nextRequestId)
      ensures Answers(v, byChannel, requestId, reqsByIndex, old(nextRequestId))
      ensures nextRequestId == NextIdAfter(v, old(nextRequestId))
      ensures sent == old(sent) + NewRequests(v, old(nextRequestId))
      ensures inFlight == old(inFlight) + NewRequests(v, old(nextRequestId)).Keys
    {
      hide View.DueIds, View.DuePages, View.Channels, ChannelRequests, RequestIds, NewRequests, Indexed;
      SentTogether(sent, inFlight, v, nextRequestId);
      requestId := 0;
      RequestToIs(v, NotChannel);
      hide View.RequestTo;
      if ids != [] {
        requestId := Request(NotChannel, ids, v.DuePages(NotChannel, v.pending.Keys));
      }
      assert nextRequestId == FirstChannelId(v, old(nextRequestId));
      reqsByIndex := SendToChannels(v, byChannel);
    }

    /** Put one request on the network. */
    method Request(scope: Scope, ids: seq<int>, ghost forPages: seq<Page>) returns (requestId: int)
      modifies `nextRequestId, `sent, `inFlight
      ensures requestId == old(nextRequestId) && nextRequestId == requestId + 1
      ensures sent == old(sent)[requestId := Sent(scope, ids, forPages)] && inFlight == old(inFlight) + {requestId}
    {
      requestId := nextRequestId;
      nextRequestId := nextRequestId + 1;
      sent := sent[requestId := Sent(scope, ids, forPages)];
      inFlight := inFlight + {requestId};
    }

    /** The loop over the channels: send each request and note its id under the request's index. */
    method SendToChannels(ghost v: View, byChannel: ByChannel) returns (reqsByIndex: seq<int>)
      requires Indexed(byChannel)
      requires forall c :: c in byChannel ==> byChannel[c].1 == v.DueIds(InChannel(c), v.pending.Keys)
      modifies `nextRequestId, `sent, `inFlight
      ensures |reqsByIndex| == |byChannel| && nextRequestId == old(nextRequestId) + |byChannel|
      ensures forall c :: c in byChannel ==>
        reqsByIndex[byChannel[c].0] == RequestIds(byChannel.Keys, old(nextRequestId))[c]
      ensures sent == old(sent) + ChannelRequests(v, byChannel.Keys, old(nextRequestId))
      ensures inFlight == old(inFlight) + ChannelRequests(v, byChannel.Keys, old(nextRequestId)).Keys
    {
      hide View.RequestTo, View.DueIds, View.DuePages, ChannelRequests, RequestIds, Filled, Sending;
      reqsByIndex := seq(|byChannel|, _ => 0);
      ghost var first, log, flight := nextRequestId, sent, inFlight;
      var left := byChannel.Keys;
      FilledAtFirst(byChannel, first, reqsByIndex);
      SendingAtFirst(v, left, first, log, flight);
      while left != {}
        invariant left <= byChannel.Keys && nextRequestId + |left| == first + |byChannel|
        invariant Filled(byChannel, first, left, nextRequestId, reqsByIndex)
        invariant Sending(v, left, nextRequestId, sent, inFlight, log + ChannelRequests(v, byChannel.Keys, first),
          flight + ChannelRequests(v, byChannel.Keys, first).Keys)
        decreases |left|
      {
        var channel := Least(left);
        SendingStep(v, left, nextRequestId, sent, inFlight, log + ChannelRequests(v, byChannel.Keys, first),
          flight + ChannelRequests(v, byChannel.Keys, first).Keys);
        FilledStep(byChannel, first, left, nextRequestId, reqsByIndex);
        left := left - {channel};
        RequestToIs(v, InChannel(channel));
        var requestId := Request(InChannel(channel), byChannel[channel].1,
          v.DuePages(InChannel(channel), v.pending.Keys));
        reqsByIndex := reqsByIndex[byChannel[channel].0 := requestId];
      }
      SendingAtLast(v, nextRequestId, sent, inFlight, log + ChannelRequests(v, byChannel.Keys, first),
        flight + ChannelRequests(v, byChannel.Keys, first).Keys);
      FilledAtLast(byChannel, first, nextRequestId, reqsByIndex);
    }
  }

  lemma NoTemporaryIds(s: State, now: int, items: map<Page, Item>)
    requires Inv(s)
    ensures s.nextId > 0 && Unresolved(ViewOf(s, now, items))
  {
  }

  ghost predicate Unresolved(v: View) {
    forall p :: p in v.pending ==> v.pending[p] >= 0
  }

  lemma ResolveIs(s: State, now: int, items: map<Page, Item>)
    ensures var v := ViewOf(s, now, items);
      Resolve(s, now, items) == State(ResolvedPending(v, s.nextId), s.pages, TimerFor(v.LeastWait(v.pending.Keys)),
        NextIdAfter(v, s.nextId), s.sent + NewRequests(v, s.nextId), s.inFlight + NewRequests(v, s.nextId).Keys,
        s.failed)
  {
    hide ResolvedPending, View.LeastWait, NextIdAfter, NewRequests;
  }

  /** The last part of resolveWebPages: nothing to do without a request, else the decoding loop. */
  method ReplaceTemporaryIds(ghost v: View, pending: map<Page, int>, ghost ids: seq<int>, ghost byChannel: ByChannel,
                             requestId: int, reqsByIndex: seq<int>, ghost first: int)
    returns (replaced: map<Page, int>)
    requires Gathered(v, pending, ids, byChannel) && Unresolved(v) && first > 0
    requires Answers(v, byChannel, requestId, reqsByIndex, first) && requestId == if ids == [] then 0 else first
    ensures replaced == ResolvedPending(v, first)
  {
    hide Numbered, Indexed, Answers, View.DueIds, View.Channels, ResolvedPending, Decodable, Decoded;
    DueIsDecodable(v, pending, byChannel, requestId, reqsByIndex, first);
    DecodedIsResolved(v, pending, byChannel, requestId, reqsByIndex, first);
    if requestId != 0 || reqsByIndex != [] {
      replaced := DecodeTemporaryIds(pending, requestId, reqsByIndex);
    } else {
      NothingToDecode(pending, requestId, reqsByIndex);
      replaced := pending;
    }
  }

  /** The loop of gotWebPages that settles and erases the pages of the answered request. */
  method SettleAnswered(pending: map<Page, int>, pages: map<Page, WebPage>, id: int)
    returns (pending': map<Page, int>, pages': map<Page, WebPage>)
    ensures pending' == StillPending(pending, id) && pages' == SettledPages(pages, pending, id)
  {
    pending', pages' := pending, pages;
    var left := pending.Keys;
    while left != {}
      invariant left <= pending.Keys && pages'.Keys == pages.Keys
      invariant forall p :: p in pending' <==> p in pending && (p in left || pending[p] != id)
      invariant forall p :: p in pending' ==> pending'[p] == pending[p]
      invariant forall p :: p in pages && (p in left || p !in pending) ==> pages'[p] == pages[p]
      invariant forall p :: p in pages && p !in left ==> pages'[p] == SettledPages(pages, pending, id)[p]
      decreases |left|
    {
      var page := Least(left);
      left := left - {page};
      if pending[page] == id {
        if page in pages' && pages'[page].pendingTill > 0 {
          pages' := pages'[page := Failed(pages'[page])];
        }
        pending' := pending' - {page};
      }
    }
  }

  lemma RequestToIs(v: View, scope: Scope)
    ensures v.RequestTo(scope) == Sent(scope, v.DueIds(scope, v.pending.Keys), v.DuePages(scope, v.pending.Keys))
  {
  }

  // ---- The last loop: from temporary ids to ids ----

  /** The index `-id - 2` that a temporary id encodes is in range. */
  ghost predicate Decodable(pending: map<Page, int>, reqsByIndex: seq<int>) {
    forall p :: p in pending && pending[p] < -1 ==> -pending[p] - 2 < |reqsByIndex|
  }

  function Decoded(temporary: int, requestId: int, reqsByIndex: seq<int>): int {
    if temporary >= 0 then temporary
    else if temporary == -1 then requestId
    else if -temporary - 2 < |reqsByIndex| then reqsByIndex[-temporary - 2]
    else 0
  }

  /** The loop that replaces each temporary id by the id of the request it stands for. */
  method DecodeTemporaryIds(pending: map<Page, int>, requestId: int, reqsByIndex: seq<int>)
      returns (decoded: map<Page, int>)
    requires Decodable(pending, reqsByIndex)
    ensures decoded == map p | p in pending :: Decoded(pending[p], requestId, reqsByIndex)
  {
    decoded := pending;
    var left := pending.Keys;
    while left != {}
      invariant left <= decoded.Keys == pending.Keys
      invariant forall p :: p in left ==> decoded[p] == pending[p]
      invariant forall p :: p in pending && p !in left ==> decoded[p] == Decoded(pending[p], requestId, reqsByIndex)
      decreases |left|
    {
      var page := Least(left);
      left := left - {page};
      if decoded[page] > 0 {
        continue;
      } else if decoded[page] < 0 {
        if decoded[page] == -1 {
          decoded := decoded[page := requestId];
        } else {
          decoded := decoded[page := reqsByIndex[-decoded[page] - 2]];
        }
      }
    }
  }

  /** The ids that the requests of a resolve got. */
  ghost predicate Answers(v: View, byChannel: ByChannel, requestId: int, reqsByIndex: seq<int>, first: int) {
    && Indexed(byChannel) && byChannel.Keys == v.Channels(v.pending.Keys) && |reqsByIndex| == |byChannel|
    && (v.DueIds(NotChannel, v.pending.Keys) != [] ==> requestId == first)
    && (forall c :: c in byChannel ==>
        reqsByIndex[byChannel[c].0] == RequestIds(byChannel.Keys, FirstChannelId(v, first))[c])
  }

  lemma ResolvedAt(v: View, first: int, p: Page, scope: Scope)
    requires v.DueIn(p, scope)
    ensures scope.InChannel? ==> scope.channel in v.Channels(v.pending.Keys)
    ensures p in ResolvedPending(v, first) && ResolvedPending(v, first)[p] == RequestIdFor(v, first, scope)
    ensures scope == NotChannel ==> v.DueIds(NotChannel, v.pending.Keys) != []
  {
    SomeIds(v, scope, p);
    hide RequestIdFor, View.DueIds;
  }

  lemma TemporaryAt(v: View, byChannel: ByChannel, p: Page, scope: Scope)
    requires v.DueIn(p, scope) && byChannel.Keys == v.Channels(v.pending.Keys)
    ensures Temporary(v, byChannel, p) ==
      match scope
      case NotChannel => -1
      case InChannel(c) => if c in byChannel then -byChannel[c].0 - 2 else 0
  {
    hide View.Channels;
  }

  lemma CommonAnswer(v: View, byChannel: ByChannel, requestId: int, reqsByIndex: seq<int>, first: int)
    requires Answers(v, byChannel, requestId, reqsByIndex, first) && v.DueIds(NotChannel, v.pending.Keys) != []
    ensures requestId == RequestIdFor(v, first, NotChannel)
  {
  }

  lemma ChannelAnswer(v: View, byChannel: ByChannel, requestId: int, reqsByIndex: seq<int>, first: int, c: nat)
    requires Answers(v, byChannel, requestId, reqsByIndex, first) && c in v.Channels(v.pending.Keys)
    ensures c in byChannel && 0 <= byChannel[c].0 < |reqsByIndex|
    ensures reqsByIndex[byChannel[c].0] == RequestIdFor(v, first, InChannel(c))
  {
    hide View.DueIds, View.Channels, RequestIds, FirstChannelId;
  }

  lemma AnswersKeys(v: View, byChannel: ByChannel, requestId: int, reqsByIndex: seq<int>, first: int)
    requires Answers(v, byChannel, requestId, reqsByIndex, first)
    ensures byChannel.Keys == v.Channels(v.pending.Keys)
  {
    hide View.DueIds, View.Channels, RequestIds, FirstChannelId, Indexed;
  }

  /** A due page's temporary id stands for the request that the page belongs to. */
  lemma DueIsDecodedIn(v: View, byChannel: ByChannel, requestId: int, reqsByIndex: seq<int>, first: int, p: Page,
      scope: Scope)
    requires Answers(v, byChannel, requestId, reqsByIndex, first)
    requires v.DueIn(p, scope) && p in v.pending
    ensures var t := Temporary(v, byChannel, p);
      && t < 0 && (t < -1 ==> -t - 2 < |reqsByIndex|) && (t == -1 ==> v.DueIds(NotChannel, v.pending.Keys) != [])
      && p in ResolvedPending(v, first) && Decoded(t, requestId, reqsByIndex) == ResolvedPending(v, first)[p]
  {
    hide *;
    ResolvedAt(v, first, p, scope);
    AnswersKeys(v, byChannel, requestId, reqsByIndex, first);
    TemporaryAt(v, byChannel, p, scope);
    if scope.NotChannel? {
      CommonAnswer(v, byChannel, requestId, reqsByIndex, first);
      CommonDecoded(requestId, reqsByIndex);
    } else {
      ChannelAnswer(v, byChannel, requestId, reqsByIndex, first, scope.channel);
      ChannelDecoded(byChannel[scope.channel].0, requestId, reqsByIndex);
    }
  }

  lemma DueIsDecoded(v: View, byChannel: ByChannel, requestId: int, reqsByIndex: seq<int>, first: int, p: Page)
    requires Answers(v, byChannel, requestId, reqsByIndex, first)
    requires v.Due(p)
    ensures var t := Temporary(v, byChannel, p);
      && t < 0 && (t < -1 ==> -t - 2 < |reqsByIndex|) && (t == -1 ==> v.DueIds(NotChannel, v.pending.Keys) != [])
      && p in ResolvedPending(v, first) && Decoded(t, requestId, reqsByIndex) == ResolvedPending(v, first)[p]
  {
    hide Answers, ResolvedPending, Temporary, Decoded;
    DueIsDecodedIn(v, byChannel, requestId, reqsByIndex, first, p, v.items[p].scope);
  }

  lemma CommonDecoded(requestId: int, reqsByIndex: seq<int>)
    ensures Decoded(-1, requestId, reqsByIndex) == requestId
  {
  }

  lemma ChannelDecoded(index: int, requestId: int, reqsByIndex: seq<int>)
    requires 0 <= index < |reqsByIndex|
    ensures Decoded(-index - 2, requestId, reqsByIndex) == reqsByIndex[index]
  {
  }

  lemma DueIsDecodable(v: View, pending: map<Page, int>, byChannel: ByChannel, requestId: int, reqsByIndex: seq<int>,
      first: int)
    requires Numbered(v, {}, pending, byChannel) && forall p :: p in v.pending ==> v.pending[p] >= 0
    requires Answers(v, byChannel, requestId, reqsByIndex, first)
    ensures Decodable(pending, reqsByIndex)
    ensures forall p :: p in pending && pending[p] == -1 ==> v.DueIds(NotChannel, v.pending.Keys) != []
  {
    hide View.DueIds, View.Channels, View.Due, Decoded, Answers;
    forall p | p in pending
      ensures pending[p] < -1 ==> -pending[p] - 2 < |reqsByIndex|
      ensures pending[p] == -1 ==> v.DueIds(NotChannel, v.pending.Keys) != []
    {
      if v.Due(p) {
        DueIsDecoded(v, byChannel, requestId, reqsByIndex, first, p);
      }
      hide ResolvedPending;
    }
  }

  lemma DecodedIsResolved(v: View, pending: map<Page, int>, byChannel: ByChannel, requestId: int,
      reqsByIndex: seq<int>, first: int)
    requires Numbered(v, {}, pending, byChannel) && forall p :: p in v.pending ==> v.pending[p] >= 0
    requires Answers(v, byChannel, requestId, reqsByIndex, first)
    ensures (map p | p in pending :: Decoded(pending[p], requestId, reqsByIndex)) == ResolvedPending(v, first)
  {
    hide View.DueIds, View.Channels, View.Due, Decoded, Answers, RequestIdFor;
    forall p | p in pending ensures Decoded(pending[p], requestId, reqsByIndex) == ResolvedPending(v, first)[p] {
      if v.Due(p) {
        DueIsDecoded(v, byChannel, requestId, reqsByIndex, first, p);
      } else {
        DecodedAsIs(pending[p], requestId, reqsByIndex);
      }
    }
  }

  lemma DecodedAsIs(id: int, requestId: int, reqsByIndex: seq<int>)
    requires id >= 0
    ensures Decoded(id, requestId, reqsByIndex) == id
  {
  }

  /** Without any request no page has a temporary id. */
  lemma NothingToDecode(pending: map<Page, int>, requestId: int, reqsByIndex: seq<int>)
    requires Decodable(pending, reqsByIndex) && reqsByIndex == [] && requestId == 0
    requires forall p :: p in pending ==> pending[p] != -1
    ensures (map p | p in pending :: Decoded(pending[p], requestId, reqsByIndex)) == pending
  {
  }

  /** What the first loop hands over: temporary ids, the ids for each request, and the least wait. */
  ghost predicate Gathered(v: View, pending: map<Page, int>, ids: seq<int>, byChannel: ByChannel) {
    && Numbered(v, {}, pending, byChannel) && Indexed(byChannel) && byChannel.Keys == v.Channels(v.pending.Keys)
    && ids == v.DueIds(NotChannel, v.pending.Keys)
    && (forall c :: c in byChannel ==> byChannel[c].1 == v.DueIds(InChannel(c), v.pending.Keys))
  }

  lemma CollectedAtLast(v: View, pending: map<Page, int>, ids: seq<int>, byChannel: ByChannel, m: int)
    requires Collecting(v, {}, pending, ids, byChannel, m)
    ensures Gathered(v, pending, ids, byChannel) && m == v.LeastWait(v.pending.Keys)
  {
    assert v.pending.Keys - {} == v.pending.Keys;
    forall c | c in byChannel ensures byChannel[c].1 == v.DueIds(InChannel(c), v.pending.Keys) {
      assert v.DueIds(InChannel(c), v.pending.Keys) == IdsOf(byChannel, c) + v.DueIds(InChannel(c), {});
    }
    hide View.Channels;
  }

  lemma SentTogether(sent: map<int, Sent>, inFlight: set<int>, v: View, nextId: int)
    ensures var none := v.DueIds(NotChannel, v.pending.Keys) == [];
      var log := if none then sent else sent[nextId := v.RequestTo(NotChannel)];
      var flight := if none then inFlight else inFlight + {nextId};
      var requests := ChannelRequests(v, v.Channels(v.pending.Keys), FirstChannelId(v, nextId));
      log + requests == sent + NewRequests(v, nextId)
        && flight + requests.Keys == inFlight + NewRequests(v, nextId).Keys
  {
    hide View.DueIds, View.DuePages, View.Channels, ChannelRequests, View.RequestTo;
  }

  /** The ids in place for the channels whose requests are sent, and those that the others will get. */
  ghost predicate Filled(byChannel: ByChannel, first: int, left: set<nat>, nextId: int, reqsByIndex: seq<int>) {
    && left <= byChannel.Keys && Indexed(byChannel) && |reqsByIndex| == |byChannel|
    && (forall c :: c in left ==> RequestIds(left, nextId)[c] == RequestIds(byChannel.Keys, first)[c])
    && (forall c :: c in byChannel && c !in left ==>
      reqsByIndex[byChannel[c].0] == RequestIds(byChannel.Keys, first)[c])
  }

  lemma FilledAtFirst(byChannel: ByChannel, first: int, reqsByIndex: seq<int>)
    requires Indexed(byChannel) && |reqsByIndex| == |byChannel|
    ensures Filled(byChannel, first, byChannel.Keys, first, reqsByIndex)
  {
  }

  lemma FilledStep(byChannel: ByChannel, first: int, left: set<nat>, nextId: int, reqsByIndex: seq<int>)
    requires Filled(byChannel, first, left, nextId, reqsByIndex) && left != {}
    ensures var index := byChannel[Least(left)].0;
      0 <= index < |reqsByIndex| && Filled(byChannel, first, left - {Least(left)}, nextId + 1,
        reqsByIndex[index := nextId])
  {
    var c := Least(left);
    assert RequestIds(left, nextId) == RequestIds(left - {c}, nextId + 1)[c := nextId];
    FilledWith(byChannel, first, left, nextId, reqsByIndex, c, RequestIds(left - {c}, nextId + 1));
  }

  lemma FilledWith(byChannel: ByChannel, first: int, left: set<nat>, nextId: int, reqsByIndex: seq<int>, c: nat,
      rest: map<nat, int>)
    requires Filled(byChannel, first, left, nextId, reqsByIndex) && c in left
    requires rest == RequestIds(left - {c}, nextId + 1) && RequestIds(left, nextId) == rest[c := nextId]
    ensures 0 <= byChannel[c].0 < |reqsByIndex|
    ensures Filled(byChannel, first, left - {c}, nextId + 1, reqsByIndex[byChannel[c].0 := nextId])
  {
    hide RequestIds;
    assert forall d :: d in left - {c} ==> rest[d] == RequestIds(byChannel.Keys, first)[d];
    assert RequestIds(byChannel.Keys, first)[c] == nextId;
  }

  lemma FilledAtLast(byChannel: ByChannel, first: int, nextId: int, reqsByIndex: seq<int>)
    requires Filled(byChannel, first, {}, nextId, reqsByIndex)
    ensures |reqsByIndex| == |byChannel|
    ensures forall c :: c in byChannel ==>
      0 <= byChannel[c].0 < |reqsByIndex| && reqsByIndex[byChannel[c].0] == RequestIds(byChannel.Keys, first)[c]
  {
  }

  /** With the requests to the channels left, the log and the set of unanswered requests will be the given ones. */
  ghost predicate Sending(v: View, left: set<nat>, nextId: int, sent: map<int, Sent>, inFlight: set<int>,
      allSent: map<int, Sent>, allInFlight: set<int>) {
    sent + ChannelRequests(v, left, nextId) == allSent
      && inFlight + ChannelRequests(v, left, nextId).Keys == allInFlight
  }

  lemma SendingAtFirst(v: View, channels: set<nat>, first: int, sent: map<int, Sent>, inFlight: set<int>)
    ensures var r := ChannelRequests(v, channels, first);
      Sending(v, channels, first, sent, inFlight, sent + r, inFlight + r.Keys)
  {
  }

  lemma SendingStep(v: View, left: set<nat>, nextId: int, sent: map<int, Sent>, inFlight: set<int>,
      allSent: map<int, Sent>, allInFlight: set<int>)
    requires left != {} && Sending(v, left, nextId, sent, inFlight, allSent, allInFlight)
    ensures var c := Least(left);
      Sending(v, left - {c}, nextId + 1, sent[nextId := v.RequestTo(InChannel(c))], inFlight + {nextId}, allSent,
        allInFlight)
  {
    var c := Least(left);
    var rest, request := ChannelRequests(v, left - {c}, nextId + 1), v.RequestTo(InChannel(c));
    ChannelRequestIds(v, left - {c}, nextId + 1, nextId);
    hide View.RequestTo;
    assert sent + rest[nextId := request] == sent[nextId := request] + rest;
    assert inFlight + rest[nextId := request].Keys == inFlight + {nextId} + rest.Keys;
  }

  lemma SendingAtLast(v: View, nextId: int, sent: map<int, Sent>, inFlight: set<int>, allSent: map<int, Sent>,
      allInFlight: set<int>)
    requires Sending(v, {}, nextId, sent, inFlight, allSent, allInFlight)
    ensures sent == allSent && inFlight == allInFlight
  {
  }
}
