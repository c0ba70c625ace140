// ApiWrap::forwardMessages: the messages are sent in batches of one source peer,
// each batch pays for itself out of the approved stars, and a shared counter
// decides when the success callback runs.
module Forwarding {

  type PeerId = nat

  datatype Item = Item(id: nat, from: PeerId, savedMusic: bool)

  /** One message of a forward request. */
  datatype Message = Message(from: PeerId, id: nat, randomId: nat)

  /** One forward request; `local` holds the random ids that have a local message. */
  datatype Batch = Batch(from: PeerId, ids: seq<nat>, randomIds: seq<nat>, local: set<nat>, starsPaid: nat)

  function Min(a: nat, b: nat): nat {
    if a < b then a else b
  }

  function Cost(messages: nat, price: nat): nat {
    messages * price
  }

  // ---- What is forwarded ----

  /** The items that are forwarded, and those that are sent as documents instead. */
  function Kept(items: seq<Item>): seq<Item> {
    if items == [] then []
    else if items[0].savedMusic then Kept(items[1..]) else [items[0]] + Kept(items[1..])
  }

  function SavedMusic(items: seq<Item>): seq<nat> {
    if items == [] then []
    else if items[0].savedMusic then [items[0].id] + SavedMusic(items[1..]) else SavedMusic(items[1..])
  }

  lemma {:induction false} KeptIs(items: seq<Item>, item: Item)
    ensures multiset(Kept(items))[item] == if item.savedMusic then 0 else multiset(items)[item]
    ensures |Kept(items)| + |SavedMusic(items)| == |items|
  {
    if items != [] {
      KeptIs(items[1..], item);
      assert items == [items[0]] + items[1..];
    }
  }

  /** The items with the random ids they were given, in order. */
  function Messages(items: seq<Item>, randomIds: seq<nat>): seq<Message>
    requires |items| == |randomIds|
  {
    seq(|items|, i requires 0 <= i < |items| => Message(items[i].from, items[i].id, randomIds[i]))
  }

  function BatchMessages(batch: Batch): seq<Message>
    requires |batch.ids| == |batch.randomIds|
  {
    seq(|batch.ids|, i requires 0 <= i < |batch.ids| => Message(batch.from, batch.ids[i], batch.randomIds[i]))
  }

  ghost predicate Aligned(batches: seq<Batch>) {
    forall i :: 0 <= i < |batches| ==> |batches[i].ids| == |batches[i].randomIds|
  }

  /** All the messages of the batches, in the order in which they are sent. */
  function AllMessages(batches: seq<Batch>): seq<Message>
    requires Aligned(batches)
  {
    if batches == [] then [] else AllMessages(batches[..|batches| - 1]) + BatchMessages(batches[|batches| - 1])
  }

  /** No batch is empty, and no two neighbours come from the same peer. */
  ghost predicate MaximalRuns(batches: seq<Batch>) {
    && Aligned(batches)
    && (forall i :: 0 <= i < |batches| ==> batches[i].ids != [])
    && (forall i :: 0 < i < |batches| ==> batches[i - 1].from != batches[i].from)
  }

  function TotalPaid(batches: seq<Batch>): nat {
    if batches == [] then 0 else TotalPaid(batches[..|batches| - 1]) + batches[|batches| - 1].starsPaid
  }

  /** Every batch pays the price of its messages, as long as the approved stars last. */
  ghost predicate PaysGreedily(batches: seq<Batch>, approved: nat, price: nat) {
    batches != [] ==>
      var paid := TotalPaid(batches[..|batches| - 1]);
      && PaysGreedily(batches[..|batches| - 1], approved, price)
      && paid <= approved
      && batches[|batches| - 1].starsPaid == Min(approved - paid, Cost(|batches[|batches| - 1].ids|, price))
  }

  // ---- There is only one way to split a list into maximal runs ----

  /** The message before the last batch comes from another peer. */
  lemma LastBatchIsMaximal(batches: seq<Batch>)
    requires MaximalRuns(batches) && |batches| >= 2
    ensures var all, last := AllMessages(batches), batches[|batches| - 1];
      |all| > |last.ids| && all[|all| - |last.ids| - 1].from != last.from
  {
    var front := batches[..|batches| - 1];
    assert AllMessages(front) == AllMessages(front[..|front| - 1]) + BatchMessages(front[|front| - 1]);
  }

  lemma LastBatchIsUniform(batches: seq<Batch>, k: nat)
    requires MaximalRuns(batches) && batches != [] && k < |batches[|batches| - 1].ids|
    ensures var all, last := AllMessages(batches), batches[|batches| - 1];
      |all| >= |last.ids|
      && all[|all| - 1 - k] == Message(last.from, last.ids[|last.ids| - 1 - k], last.randomIds[|last.ids| - 1 - k])
  {
  }

  /** Two splits of the same messages into maximal runs end with the same batch, but for what it pays. */
  lemma LastBatchIsDetermined(a: seq<Batch>, b: seq<Batch>)
    requires MaximalRuns(a) && MaximalRuns(b) && a != [] && b != []
    requires AllMessages(a) == AllMessages(b)
    requires |a[|a| - 1].ids| <= |b[|b| - 1].ids|
    ensures var x, y := a[|a| - 1], b[|b| - 1]; x.from == y.from && x.ids == y.ids && x.randomIds == y.randomIds
  {
    var x, y := a[|a| - 1], b[|b| - 1];
    LastBatchIsUniform(a, 0);
    LastBatchIsUniform(b, 0);
    if |x.ids| < |y.ids| {
      LastBatchIsUniform(b, |x.ids|);
      if |a| >= 2 {
        LastBatchIsMaximal(a);
      }
      assert false;
    }
    forall k | 0 <= k < |x.ids| ensures x.ids[k] == y.ids[k] && x.randomIds[k] == y.randomIds[k] {
      LastBatchIsUniform(a, |x.ids| - 1 - k);
      LastBatchIsUniform(b, |x.ids| - 1 - k);
    }
  }

  /** The peers, ids and random ids of the batches are determined by the messages. */
  lemma {:induction false} MaximalRunsAreUnique(a: seq<Batch>, b: seq<Batch>)
    requires MaximalRuns(a) && MaximalRuns(b) && AllMessages(a) == AllMessages(b)
    ensures |a| == |b|
    ensures forall i :: 0 <= i < |a| ==>
      a[i].from == b[i].from && a[i].ids == b[i].ids && a[i].randomIds == b[i].randomIds
    decreases |a|
  {
    if a != [] { LastBatchIsUniform(a, 0); }
    if b != [] { LastBatchIsUniform(b, 0); }
    if a != [] && b != [] {
      if |a[|a| - 1].ids| <= |b[|b| - 1].ids| { LastBatchIsDetermined(a, b); } else { LastBatchIsDetermined(b, a); }
      var fa, fb := a[..|a| - 1], b[..|b| - 1];
      assert AllMessages(fa) == AllMessages(a)[..|AllMessages(fa)|];
      assert AllMessages(fb) == AllMessages(b)[..|AllMessages(fb)|];
      MaximalRunsAreUnique(fa, fb);
      assert forall i :: 0 <= i < |a| ==> (i < |fa| && a[i] == fa[i] && b[i] == fb[i]) || i == |a| - 1;
    }
  }

  // ---- Putting the batches together, item by item ----

  lemma AppendBatch(batches: seq<Batch>, batch: Batch)
    requires Aligned(batches) && |batch.ids| == |batch.randomIds|
    ensures Aligned(batches + [batch]) && AllMessages(batches + [batch]) == AllMessages(batches) + BatchMessages(batch)
  {
    assert (batches + [batch])[..|batches|] == batches;
  }

  /** The batches sent and the one under way hold the messages seen so far. */
  ghost predicate Gathered(batches: seq<Batch>, current: Batch, messages: seq<Message>) {
    MaximalRuns(batches + [current]) && AllMessages(batches + [current]) == messages
  }

  lemma FirstIsGathered(current: Batch, message: Message)
    requires current.from == message.from && current.ids == [message.id] && current.randomIds == [message.randomId]
    ensures Gathered([], current, [message])
  {
    AppendBatch([], current);
  }

  /** What a batch pays and which local messages it has does not matter for its messages. */
  lemma GatheredIgnoresPayment(batches: seq<Batch>, current: Batch, other: Batch, messages: seq<Message>)
    requires Gathered(batches, current, messages)
    requires other.from == current.from && other.ids == current.ids && other.randomIds == current.randomIds
    ensures Gathered(batches, other, messages)
  {
    assert Aligned(batches) by { assert forall k :: 0 <= k < |batches| ==> (batches + [current])[k] == batches[k]; }
    assert |(batches + [current])[|batches|].ids| == |current.randomIds|;
    AppendBatch(batches, current);
    AppendBatch(batches, other);
    assert forall k :: 0 <= k < |batches| ==> (batches + [current])[k] == (batches + [other])[k];
    assert MaximalRuns(batches + [other]);
  }

  lemma GatheredAre(batches: seq<Batch>, current: Batch, messages: seq<Message>)
    requires Gathered(batches, current, messages)
    ensures MaximalRuns(batches + [current]) && AllMessages(batches + [current]) == messages
  {
  }

  lemma GatherSamePeer(batches: seq<Batch>, current: Batch, next: Batch, messages: seq<Message>, message: Message)
    requires Gathered(batches, current, messages)
    requires next.from == current.from == message.from
    requires next.ids == current.ids + [message.id] && next.randomIds == current.randomIds + [message.randomId]
    ensures Gathered(batches, next, messages + [message])
  {
    assert forall k :: 0 <= k < |batches| ==> (batches + [current])[k] == batches[k] == (batches + [next])[k];
    assert Aligned(batches);
    assert |(batches + [current])[|batches|].ids| == |current.randomIds|;
    AppendBatch(batches, current);
    AppendBatch(batches, next);
    assert BatchMessages(next) == BatchMessages(current) + [message];
    assert MaximalRuns(batches + [next]);
  }

  lemma GatherOtherPeer(batches: seq<Batch>, current: Batch, next: Batch, messages: seq<Message>, message: Message)
    requires Gathered(batches, current, messages)
    requires next.from == message.from != current.from && next.ids == [message.id]
      && next.randomIds == [message.randomId]
    ensures Gathered(batches + [current], next, messages + [message])
  {
    var sent := batches + [current];
    assert forall k :: 0 <= k < |sent| ==> (sent + [next])[k] == sent[k];
    AppendBatch(sent, next);
    assert MaximalRuns(sent + [next]);
  }

  // ---- Payment ----

  /** The batches have been paid for, and the rest of the approved stars is left. */
  ghost predicate PaidFor(batches: seq<Batch>, approved: nat, price: nat, left: nat) {
    PaysGreedily(batches, approved, price) && TotalPaid(batches) + left == approved
  }

  lemma NothingPaidYet(approved: nat, price: nat)
    ensures PaidFor([], approved, price, approved)
  {
  }

  lemma PayForNext(batches: seq<Batch>, approved: nat, price: nat, left: nat, batch: Batch)
    requires PaidFor(batches, approved, price, left) && batch.starsPaid == Min(left, Cost(|batch.ids|, price))
    ensures PaidFor(batches + [batch], approved, price, left - batch.starsPaid)
  {
    hide Cost;
    assert (batches + [batch])[..|batches|] == batches;
  }

  // Local messages are made only for a single message, which is then its whole batch.

  function Elements(s: seq<nat>): set<nat> {
    set x | x in s
  }

  ghost predicate LocalIdsAreOwn(batches: seq<Batch>, local: bool) {
    forall k :: 0 <= k < |batches| ==> batches[k].local == if local then Elements(batches[k].randomIds) else {}
  }

  /** The batch is sent and the next one is empty. */
  lemma OwnIdsAfterSend(before: seq<Batch>, unpaid: Batch, sent: Batch, next: Batch, local: bool)
    requires LocalIdsAreOwn(before + [unpaid], local)
    requires sent.randomIds == unpaid.randomIds && sent.local == unpaid.local
    requires next.randomIds == [] && next.local == {}
    ensures LocalIdsAreOwn(before + [sent] + [next], local)
  {
    assert unpaid == (before + [unpaid])[|before|];
    assert forall k :: 0 <= k < |before| ==> (before + [sent] + [next])[k] == (before + [unpaid])[k];
  }

  lemma OwnIdsAfterAdd(before: seq<Batch>, current: Batch, added: Batch, randomId: nat, local: bool)
    requires LocalIdsAreOwn(before + [current], local)
    requires added.randomIds == current.randomIds + [randomId]
    requires added.local == if local then current.local + {randomId} else current.local
    ensures LocalIdsAreOwn(before + [added], local)
  {
    assert current == (before + [current])[|before|];
    assert forall k :: 0 <= k < |before| ==> (before + [added])[k] == (before + [current])[k];
  }

  lemma CostAdds(m: nat, n: nat, price: nat)
    ensures Cost(m + n, price) == Cost(m, price) + Cost(n, price)
  {
    assert (m + n) * price == m * price + n * price;
  }

  /** Paying batch by batch comes to the price of all the messages, capped by the stars approved. */
  lemma {:induction false} GreedyTotal(batches: seq<Batch>, approved: nat, price: nat)
    requires Aligned(batches) && PaysGreedily(batches, approved, price)
    ensures TotalPaid(batches) == Min(approved, |AllMessages(batches)| * price)
    decreases |batches|
  {
    if batches != [] {
      var front, last := batches[..|batches| - 1], batches[|batches| - 1];
      GreedyTotal(front, approved, price);
      var m, n := |AllMessages(front)|, |last.ids|;
      assert |AllMessages(batches)| == m + n;
      CostAdds(m, n, price);
      hide Cost;
    }
  }

  // ---- The success callback ----

  /** How far the requests are: which of those sent are on the network, and which came back. */
  datatype Progress = Progress(
    sent: nat,
    inFlight: set<nat>,
    succeeded: set<nat>,
    failed: set<nat>,
    requestsLeft: int,
    callbackRuns: nat)

  const START := Progress(0, {}, {}, {}, 0, 0)

  function SendOne(p: Progress): Progress {
    p.(sent := p.sent + 1, inFlight := p.inFlight + {p.sent}, requestsLeft := p.requestsLeft + 1)
  }

  function Sending(n: nat): Progress {
    if n == 0 then START else SendOne(Sending(n - 1))
  }

  function Done(p: Progress, i: nat): Progress {
    p.(inFlight := p.inFlight - {i},
       succeeded := p.succeeded + {i},
       requestsLeft := p.requestsLeft - 1,
       callbackRuns := p.callbackRuns + if p.requestsLeft - 1 == 0 then 1 else 0)
  }

  function Fail(p: Progress, i: nat): Progress {
    p.(inFlight := p.inFlight - {i}, failed := p.failed + {i})
  }

  datatype Event = DoSend | DoDone(i: nat) | DoFail(i: nat)

  function Step(p: Progress, event: Event): Progress {
    match event
    case DoSend => SendOne(p)
    case DoDone(i) => if i in p.inFlight then Done(p, i) else p
    case DoFail(i) => if i in p.inFlight then Fail(p, i) else p
  }

  function Run(p: Progress, events: seq<Event>): Progress
    decreases |events|
  {
    if events == [] then p else Step(Run(p, events[..|events| - 1]), events[|events| - 1])
  }

  /** The first n requests. */
  function UpTo(n: nat): (all: set<nat>)
    ensures |all| == n && forall i: nat :: i in all <==> i < n
  {
    if n == 0 then {} else UpTo(n - 1) + {n - 1}
  }

  /** Every request sent is on the network, or has succeeded, or has failed. */
  ghost predicate Placed(p: Progress) {
    && (forall i :: i in p.inFlight ==> i < p.sent && i !in p.succeeded && i !in p.failed)
    && (forall i :: i in p.succeeded ==> i < p.sent && i !in p.failed)
    && (forall i :: i in p.failed ==> i < p.sent)
    && (forall i: nat :: i < p.sent ==> i in p.inFlight || i in p.succeeded || i in p.failed)
  }

  /** The counter is what was sent less what succeeded. */
  ghost predicate Counts(p: Progress) {
    Placed(p) && p.requestsLeft == p.sent - |p.succeeded|
  }

  lemma StepPlaces(p: Progress, event: Event)
    requires Placed(p)
    ensures Placed(Step(p, event))
  {
  }

  lemma StepCounts(p: Progress, event: Event)
    requires Counts(p)
    ensures Counts(Step(p, event))
  {
    StepPlaces(p, event);
    if event.DoDone? {
      assert event.i in p.inFlight ==> event.i !in p.succeeded;
    }
    hide Placed;
  }

  lemma {:induction false} EveryRunCounts(events: seq<Event>)
    ensures Counts(Run(START, events))
    decreases |events|
  {
    if events != [] {
      EveryRunCounts(events[..|events| - 1]);
      StepCounts(Run(START, events[..|events| - 1]), events[|events| - 1]);
    }
  }

  lemma SubsetIsSmaller(a: set<nat>, b: set<nat>)
    requires a <= b
    ensures |a| <= |b| && (|a| == |b| <==> a == b)
  {
    assert b == a + (b - a);
  }

  lemma {:induction false} SendingCounts(n: nat)
    ensures Counts(Sending(n)) && Sending(n).sent == n && Sending(n).callbackRuns == 0 && Sending(n).succeeded == {}
  {
    if n > 0 {
      SendingCounts(n - 1);
      StepCounts(Sending(n - 1), DoSend);
    }
  }

  ghost predicate OnlyAnswers(events: seq<Event>) {
    forall i :: 0 <= i < |events| ==> !events[i].DoSend?
  }

  /** The callback has run if every request succeeded, and else not. */
  ghost predicate RunsWhenAllSucceed(p: Progress, n: nat) {
    p.sent == n && p.callbackRuns == if p.succeeded == UpTo(n) then 1 else 0
  }

  lemma SucceededAre(p: Progress)
    requires Counts(p)
    ensures p.requestsLeft >= 0 && (p.requestsLeft == 0 <==> p.succeeded == UpTo(p.sent))
  {
    SubsetIsSmaller(p.succeeded, UpTo(p.sent));
  }

  lemma AnswerRunsWhenAllSucceed(p: Progress, event: Event, n: nat)
    requires Counts(p) && RunsWhenAllSucceed(p, n) && !event.DoSend?
    ensures RunsWhenAllSucceed(Step(p, event), n)
  {
    StepCounts(p, event);
    SucceededAre(p);
    SucceededAre(Step(p, event));
    assert event.i in p.inFlight ==> event.i !in p.succeeded && event.i in UpTo(n);
    hide Counts, UpTo;
  }

  /** Once all the requests are sent, the callback has run exactly if all of them succeeded, and then once. */
  lemma {:induction false} CallbackRunsOnce(n: nat, events: seq<Event>)
    requires n > 0 && OnlyAnswers(events)
    ensures Counts(Run(Sending(n), events)) && RunsWhenAllSucceed(Run(Sending(n), events), n)
    decreases |events|
  {
    hide Counts, Step;
    if events == [] {
      SendingCounts(n);
    } else {
      var before, event := Run(Sending(n), events[..|events| - 1]), events[|events| - 1];
      CallbackRunsOnce(n, events[..|events| - 1]);
      StepCounts(before, event);
      AnswerRunsWhenAllSucceed(before, event, n);
    }
  }

  /** When every request is answered, the callback has run once if none failed, and never otherwise. */
  lemma CallbackIffNoneFailed(n: nat, events: seq<Event>)
    requires n > 0 && OnlyAnswers(events) && Run(Sending(n), events).inFlight == {}
    ensures var p := Run(Sending(n), events); p.callbackRuns == if p.failed == {} then 1 else 0
  {
    CallbackRunsOnce(n, events);
  }

  /** How often a request is sent when all before it have succeeded. */
  function Restarts(events: seq<Event>): nat
    decreases |events|
  {
    if events == [] then 0
    else
      var before, last := events[..|events| - 1], events[|events| - 1];
      Restarts(before) + if last.DoSend? && Run(START, before).requestsLeft == 0 then 1 else 0
  }

  lemma StepRestarts(p: Progress, event: Event)
    requires Counts(p)
    ensures var p' := Step(p, event);
      p'.callbackRuns + (if p'.requestsLeft > 0 then 1 else 0)
        == p.callbackRuns + (if p.requestsLeft > 0 then 1 else 0)
          + (if event.DoSend? && p.requestsLeft == 0 then 1 else 0)
  {
    SucceededAre(p);
    StepCounts(p, event);
    SucceededAre(Step(p, event));
    if event.DoDone? && event.i in p.inFlight {
      assert event.i in UpTo(p.sent) && event.i !in p.succeeded;
    }
    hide Counts, UpTo;
  }

  /**
   * However sends and answers alternate, the callback runs once for each time that
   * requests were started afresh and all have succeeded since: only because all
   * requests are sent before the first answer does it run but once.
   */
  lemma {:induction false} CallbackRunsPerRestart(events: seq<Event>)
    ensures var p := Run(START, events);
      Restarts(events) == p.callbackRuns + if p.requestsLeft > 0 then 1 else 0
    decreases |events|
  {
    hide Step, Counts;
    if events != [] {
      var before := events[..|events| - 1];
      CallbackRunsPerRestart(before);
      EveryRunCounts(before);
      StepRestarts(Run(START, before), events[|events| - 1]);
    }
  }

  // ---- The object that the source updates in place ----

  /** The local variables of one call of forwardMessages, which the answers share. */
  class Forward {
    const price: nat
    const hasCallback: bool
    var starsApproved: nat
    var forwardFrom: PeerId
    var ids: seq<nat>
    var randomIds: seq<nat>
    var localIds: set<nat>
    var batches: seq<Batch>
    var documents: seq<nat>
    var inFlight: set<nat>
    var succeeded: set<nat>
    var failed: set<nat>
    var requestsLeft: int
    var callbackRuns: nat
    var failedLocal: set<nat>

    ghost function Abs(): Progress
      reads this
    {
      Progress(|batches|, inFlight, succeeded, failed, requestsLeft, callbackRuns)
    }

    constructor (starsApproved: nat, price: nat, hasCallback: bool)
      ensures Abs() == START && batches == [] && documents == []
      ensures this.starsApproved == starsApproved && this.price == price && this.hasCallback == hasCallback
      ensures ids == [] && randomIds == [] && localIds == {}
    {
      this.starsApproved, this.price, this.hasCallback := starsApproved, price, hasCallback;
      forwardFrom, ids, randomIds, localIds := 0, [], [], {};
      batches, documents := [], [];
      inFlight, succeeded, failed, requestsLeft, callbackRuns, failedLocal := {}, {}, {}, 0, 0, {};
    }

    /** The batch that is being put together. */
    ghost function Current(starsPaid: nat): Batch
      reads this
    {
      Batch(forwardFrom, ids, randomIds, localIds, starsPaid)
    }

    method SendAccumulated()
      modifies `starsApproved, `ids, `randomIds, `localIds, `batches, `inFlight, `requestsLeft
      ensures var paid := Min(old(starsApproved), Cost(|old(ids)|, price));
        batches == old(batches) + [old(Current(paid))] && starsApproved == old(starsApproved) - paid
      ensures ids == [] && randomIds == [] && localIds == {}
      ensures inFlight == old(inFlight) + {|old(batches)|}
      ensures requestsLeft == old(requestsLeft) + if hasCallback then 1 else 0
    {
      if hasCallback {
        requestsLeft := requestsLeft + 1;
      }
      var starsPaid := Min(starsApproved, Cost(|ids|, price));
      if starsPaid != 0 {
        starsApproved := starsApproved - starsPaid;
      }
      inFlight := inFlight + {|batches|};
      batches := batches + [Batch(forwardFrom, ids, randomIds, localIds, starsPaid)];
      ids, randomIds, localIds := [], [], {};
    }

    /** The loop that takes the saved music out and sends it as documents. */
    method SendSavedMusic(items: seq<Item>) returns (left: seq<Item>)
      requires documents == []
      modifies `documents
      ensures left == Kept(items) && documents == SavedMusic(items)
    {
      left := items;
      var i := 0;
      while i < |left|
        invariant 0 <= i <= |left|
        invariant Kept(items) == left[..i] + Kept(left[i..])
        invariant SavedMusic(items) == documents + SavedMusic(left[i..])
        decreases |left| - i
      {
        assert left[i..][1..] == left[i + 1..];
        if left[i].savedMusic {
          documents := documents + [left[i].id];
          ghost var before := left;
          left := left[..i] + left[i + 1..];
          assert left[i..] == before[i + 1..] && left[..i] == before[..i];
        } else {
          assert left[..i + 1] == left[..i] + [left[i]];
          i := i + 1;
        }
      }
      assert left[..i] == left;
    }

    /** One turn of the loop over the items. */
    method AddItem(item: Item, randomId: nat, local: bool, ghost seen: seq<Message>, ghost approved: nat)
      requires seen == [] ==>
        && batches == [] && ids == [] && randomIds == [] && localIds == {}
        && forwardFrom == item.from
      requires seen != [] ==> !local && Gathered(batches, Current(0), seen)
      requires LocalIdsAreOwn(batches + [Current(0)], local)
      requires PaidFor(batches, approved, price, starsApproved)
      requires hasCallback ==> Abs() == Sending(|batches|)
      modifies `starsApproved, `forwardFrom, `ids, `randomIds, `localIds, `batches, `inFlight, `requestsLeft
      ensures Gathered(batches, Current(0), seen + [Message(item.from, item.id, randomId)])
      ensures LocalIdsAreOwn(batches + [Current(0)], local)
      ensures PaidFor(batches, approved, price, starsApproved)
      ensures hasCallback ==> Abs() == Sending(|batches|)
    {
      hide Gathered, PaidFor, Cost, LocalIdsAreOwn;
      ghost var before, unpaid, left := batches, Current(0), starsApproved;
      ghost var current := unpaid;
      if local {
        localIds := localIds + {randomId};
      }
      ghost var message := Message(item.from, item.id, randomId);
      if forwardFrom != item.from {
        SendAccumulated();
        forwardFrom := item.from;
        current := Current(0);
        OwnIdsAfterSend(before, unpaid, batches[|before|], current, local);
        GatheredIgnoresPayment(before, unpaid, batches[|before|], seen);
        PayForNext(before, approved, price, left, batches[|before|]);
      }
      ids, randomIds := ids + [item.id], randomIds + [randomId];
      OwnIdsAfterAdd(batches, current, Current(0), randomId, local);
      if seen == [] {
        FirstIsGathered(Current(0), message);
        assert seen + [message] == [message];
      } else if unpaid.from == item.from {
        GatherSamePeer(before, unpaid, Current(0), seen, message);
      } else {
        GatherOtherPeer(before, batches[|before|], Current(0), seen, message);
      }
    }

    /** The loop over the items that are forwarded. */
    method SendInBatches(kept: seq<Item>, randoms: seq<nat>, local: bool)
      requires kept != [] && |randoms| == |kept| && (local ==> |kept| < 2)
      requires Abs() == START && batches == [] && ids == [] && randomIds == [] && localIds == {}
      modifies `starsApproved, `forwardFrom, `ids, `randomIds, `localIds, `batches, `inFlight, `requestsLeft
      ensures batches != [] && MaximalRuns(batches) && AllMessages(batches) == Messages(kept, randoms)
      ensures PaidFor(batches, old(starsApproved), price, starsApproved)
      ensures LocalIdsAreOwn(batches, local)
      ensures hasCallback ==> Abs() == Sending(|batches|)
    {
      hide Gathered, PaidFor, Cost, MaximalRuns, AllMessages;
      forwardFrom := kept[0].from;
      NothingPaidYet(starsApproved, price);
      var i := 0;
      while i < |kept|
        invariant 0 <= i <= |kept|
        invariant i == 0 ==>
          && batches == [] && ids == [] && randomIds == [] && localIds == {}
          && forwardFrom == kept[0].from
        invariant i > 0 ==> Gathered(batches, Current(0), Messages(kept, randoms)[..i])
        invariant LocalIdsAreOwn(batches + [Current(0)], local)
        invariant PaidFor(batches, old(starsApproved), price, starsApproved)
        invariant hasCallback ==> Abs() == Sending(|batches|)
      {
        ghost var seen := Messages(kept, randoms)[..i];
        assert Messages(kept, randoms)[..i + 1] == seen + [Message(kept[i].from, kept[i].id, randoms[i])];
        AddItem(kept[i], randoms[i], local, seen, old(starsApproved));
        i := i + 1;
      }
      assert Messages(kept, randoms)[..i] == Messages(kept, randoms);
      ghost var unpaid, before, left := Current(0), batches, starsApproved;
      assert unpaid == (before + [unpaid])[|before|];
      SendAccumulated();
      assert forall k :: 0 <= k < |before| ==> batches[k] == (before + [unpaid])[k];
      GatheredIgnoresPayment(before, unpaid, batches[|before|], Messages(kept, randoms));
      GatheredAre(before, batches[|before|], Messages(kept, randoms));
      PayForNext(before, old(starsApproved), price, left, batches[|before|]);
    }

    method ForwardMessages(items: seq<Item>, randoms: seq<nat>, generateLocal: bool)
      requires items != [] && |randoms| == |Kept(items)|
      requires Abs() == START && batches == [] && documents == [] && ids == [] && randomIds == [] && localIds == {}
      modifies this
      ensures documents == SavedMusic(items)
      ensures MaximalRuns(batches) && AllMessages(batches) == Messages(Kept(items), randoms)
      ensures PaysGreedily(batches, old(starsApproved), price)
      ensures TotalPaid(batches) == Min(old(starsApproved), |Kept(items)| * price)
      ensures starsApproved == old(starsApproved) - TotalPaid(batches)
      ensures LocalIdsAreOwn(batches, generateLocal && |Kept(items)| < 2)
      ensures Kept(items) == [] ==> batches == [] && callbackRuns == if hasCallback then 1 else 0
      ensures Kept(items) != [] ==> batches != [] && callbackRuns == 0 && (hasCallback ==> Abs() == Sending(|batches|))
    {
      var kept := SendSavedMusic(items);
      if kept == [] {
        if hasCallback {
          callbackRuns := callbackRuns + 1;
        }
        return;
      }
      SendInBatches(kept, randoms, generateLocal && |kept| < 2);
      GreedyTotal(batches, old(starsApproved), price);
    }

    method ReceiveDone(i: nat)
      requires i in inFlight
      modifies `inFlight, `succeeded, `requestsLeft, `callbackRuns
      ensures hasCallback ==> Abs() == Done(old(Abs()), i)
      ensures !hasCallback ==> callbackRuns == old(callbackRuns)
    {
      inFlight, succeeded := inFlight - {i}, succeeded + {i};
      if hasCallback {
        requestsLeft := requestsLeft - 1;
        if requestsLeft == 0 {
          callbackRuns := callbackRuns + 1;
        }
      }
    }

    method ReceiveFail(i: nat)
      requires i in inFlight && i < |batches|
      modifies `inFlight, `failed, `failedLocal
      ensures Abs() == Fail(old(Abs()), i)
      ensures failedLocal == old(failedLocal) + batches[i].local
    {
      inFlight, failed := inFlight - {i}, failed + {i};
      failedLocal := failedLocal + batches[i].local;
    }
  }
}
