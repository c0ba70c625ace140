// ApiWrap::saveStickerSets: what a saved order and a list of removed sets make
// of the sticker sets, and how the requests of overlapping calls are sequenced.
module StickerSets {
  import opened FlatMap

  type SetId = nat

  const CUSTOM: SetId := 0xFFFF_FFFF_FFFF_FFFF
  const CLOUD_RECENT: SetId := 0xFFFF_FFFF_FFFF_FFFC
  const CLOUD_RECENT_ATTACHED: SetId := 0xFFFF_FFFF_FFFF_FFF9

  datatype StickersType = Stickers | Masks | Emoji

  datatype StickersSet = StickersSet(
    installed: bool,
    archived: bool,
    masks: bool,
    emoji: bool,
    featured: bool,
    special: bool,
    locked: bool,
    installDate: int,
    stickers: set<nat>)
  {
    function Type(): StickersType {
      if emoji then Emoji else if masks then Masks else Stickers
    }

    /** The conditions under which the last loop keeps a set. */
    predicate Kept() {
      featured || installed || archived || special || emoji || locked
    }
  }

  type Sets = map<SetId, StickersSet>

  /** A request that installs or uninstalls a set. */
  datatype Request = Uninstall(set_: SetId) | Install(set_: SetId)

  // ---- The four loops, as functions ----

  predicate IsCloud(id: SetId) {
    id == CLOUD_RECENT || id == CLOUD_RECENT_ATTACHED
  }

  /** Removing a set: the cloud sets all go at once; an archived set stays as it is. */
  function RemoveOne(sets: Sets, id: SetId): Sets {
    if IsCloud(id) then sets - {CLOUD_RECENT, CLOUD_RECENT_ATTACHED, CUSTOM}
    else if id !in sets || sets[id].archived then sets
    else if !sets[id].featured && !sets[id].special && !sets[id].emoji && !sets[id].locked then sets - {id}
    else sets[id := sets[id].(installed := false, archived := false, installDate := 0)]
  }

  function RemoveAll(sets: Sets, removed: seq<SetId>): Sets
    decreases |removed|
  {
    if removed == [] then sets else RemoveAll(RemoveOne(sets, removed[0]), removed[1..])
  }

  /** The stickers that stay in the recent pack. */
  function RecentAfterOne(sets: Sets, recent: seq<nat>, id: SetId): seq<nat> {
    if IsCloud(id) then []
    else if id !in sets then recent
    else Without(recent, sets[id].stickers)
  }

  function Without(recent: seq<nat>, stickers: set<nat>): seq<nat> {
    if recent == [] then []
    else if recent[0] in stickers then Without(recent[1..], stickers)
    else [recent[0]] + Without(recent[1..], stickers)
  }

  function RecentAfter(sets: Sets, recent: seq<nat>, removed: seq<SetId>): seq<nat>
    decreases |removed|
  {
    if removed == [] then recent
    else RecentAfter(RemoveOne(sets, removed[0]), RecentAfterOne(sets, recent, removed[0]), removed[1..])
  }

  function UninstallOne(sets: Sets, id: SetId): seq<Request> {
    if !IsCloud(id) && id in sets && !sets[id].archived then [Uninstall(id)] else []
  }

  function Uninstalls(sets: Sets, removed: seq<SetId>): seq<Request>
    decreases |removed|
  {
    if removed == [] then []
    else UninstallOne(sets, removed[0]) + Uninstalls(RemoveOne(sets, removed[0]), removed[1..])
  }

  function ClearOne(s: StickersSet, type_: StickersType): StickersSet {
    if !s.archived && s.Type() == type_ then s.(installed := false) else s
  }

  function Cleared(sets: Sets, type_: StickersType): Sets {
    map id | id in sets :: ClearOne(sets[id], type_)
  }

  /** Putting a set that is in the order in place. */
  function PlaceOne(sets: Sets, id: SetId, removed: seq<SetId>, now: int): Sets {
    if id !in sets then sets else sets[id := Placed(sets[id], id in removed, now)]
  }

  function Placed(s: StickersSet, removed: bool, now: int): StickersSet {
    s.(installed := true, archived := s.archived && removed,
       installDate := if s.installDate == 0 then now else s.installDate)
  }

  function PlaceAll(sets: Sets, order: seq<SetId>, removed: seq<SetId>, now: int): Sets
    decreases |order|
  {
    if order == [] then sets else PlaceAll(PlaceOne(sets, order[0], removed, now), order[1..], removed, now)
  }

  function InstallOne(sets: Sets, id: SetId, removed: seq<SetId>): seq<Request> {
    if id in sets && sets[id].archived && id !in removed then [Install(id)] else []
  }

  function Installs(sets: Sets, order: seq<SetId>, removed: seq<SetId>, now: int): seq<Request>
    decreases |order|
  {
    if order == [] then []
    else
      InstallOne(sets, order[0], removed)
      + Installs(PlaceOne(sets, order[0], removed, now), order[1..], removed, now)
  }

  /** The order with every set left out that is not known. */
  function Known(sets: Sets, order: seq<SetId>): seq<SetId> {
    if order == [] then []
    else if order[0] in sets then [order[0]] + Known(sets, order[1..])
    else Known(sets, order[1..])
  }

  function Swept(sets: Sets): Sets {
    map id | id in sets && sets[id].Kept() :: sets[id]
  }

  /** All four loops. */
  function Saved(sets: Sets, type_: StickersType, order: seq<SetId>, removed: seq<SetId>, now: int): Sets {
    Swept(PlaceAll(Cleared(RemoveAll(sets, removed), type_), order, removed, now))
  }

  function SavedOrder(sets: Sets, order: seq<SetId>, removed: seq<SetId>): seq<SetId> {
    Known(RemoveAll(sets, removed), order)
  }

  function Requests(sets: Sets, type_: StickersType, order: seq<SetId>, removed: seq<SetId>, now: int): seq<Request> {
    Uninstalls(sets, removed) + Installs(Cleared(RemoveAll(sets, removed), type_), order, removed, now)
  }

  // ---- What they achieve ----

  lemma {:induction false} RemoveAllOne(sets: Sets, removed: seq<SetId>, id: SetId)
    ensures id in RemoveAll(sets, removed) ==> id in sets
    ensures id in sets && id !in removed && !IsCloud(id) && id != CUSTOM ==>
      id in RemoveAll(sets, removed) && RemoveAll(sets, removed)[id] == sets[id]
    ensures id in sets && sets[id].archived && !IsCloud(id) && id != CUSTOM ==>
      id in RemoveAll(sets, removed) && RemoveAll(sets, removed)[id] == sets[id]
    ensures id in RemoveAll(sets, removed) && id in removed && !sets[id].archived ==>
      !RemoveAll(sets, removed)[id].installed && !RemoveAll(sets, removed)[id].archived
    ensures id in RemoveAll(sets, removed) && !sets[id].archived ==> !RemoveAll(sets, removed)[id].archived
    ensures id in RemoveAll(sets, removed) && !sets[id].installed ==> !RemoveAll(sets, removed)[id].installed
    ensures id in RemoveAll(sets, removed) ==> RemoveAll(sets, removed)[id].Type() == sets[id].Type()
    decreases |removed|
  {
    if removed != [] {
      RemoveAllOne(RemoveOne(sets, removed[0]), removed[1..], id);
    }
  }

  lemma {:induction false} PlaceAllOne(sets: Sets, order: seq<SetId>, removed: seq<SetId>, now: int, id: SetId)
    ensures var after := PlaceAll(sets, order, removed, now);
      && (id in after <==> id in sets)
      && (id in sets && id !in order ==> after[id] == sets[id])
      && (id in sets && id in order ==>
          after[id].installed && after[id].archived == (sets[id].archived && id in removed))
      && (id in sets ==> after[id].Type() == sets[id].Type())
    decreases |order|
  {
    if order != [] {
      PlaceAllOne(PlaceOne(sets, order[0], removed, now), order[1..], removed, now, id);
    }
  }

  lemma {:induction false} KnownIs(sets: Sets, order: seq<SetId>, id: SetId)
    ensures id in Known(sets, order) <==> id in sets && id in order
    ensures multiset(Known(sets, order))[id] == if id in sets then multiset(order)[id] else 0
    decreases |order|
  {
    if order != [] {
      KnownIs(sets, order[1..], id);
      assert order == [order[0]] + order[1..];
    }
  }

  // The loops pass over the sets again and again; this is what they make of a single one.

  /** The cloud sets and the set of custom stickers go together. */
  predicate GoesWithCloud(removed: seq<SetId>, id: SetId) {
    && (id == CLOUD_RECENT || id == CLOUD_RECENT_ATTACHED || id == CUSTOM)
    && (CLOUD_RECENT in removed || CLOUD_RECENT_ATTACHED in removed)
  }

  predicate IsRemoved(s: StickersSet, removed: seq<SetId>, id: SetId) {
    id in removed && !s.archived && id != CLOUD_RECENT && id != CLOUD_RECENT_ATTACHED
  }

  /** A set that removal leaves known, only no longer installed. */
  predicate Stays(s: StickersSet) {
    s.featured || s.special || s.emoji || s.locked
  }

  function AfterRemoval(s: StickersSet, removed: seq<SetId>, id: SetId): StickersSet {
    if IsRemoved(s, removed, id) then s.(installed := false, installDate := 0) else s
  }

  lemma {:induction false} RemovedIs(sets: Sets, removed: seq<SetId>, id: SetId)
    ensures var after := RemoveAll(sets, removed);
      && (id in after <==>
           id in sets && !GoesWithCloud(removed, id) && (IsRemoved(sets[id], removed, id) ==> Stays(sets[id])))
      && (id in after ==> after[id] == AfterRemoval(sets[id], removed, id))
    decreases |removed|
  {
    if removed != [] {
      var next := RemoveOne(sets, removed[0]);
      assert forall x :: x in removed <==> x == removed[0] || x in removed[1..];
      RemovedIs(next, removed[1..], id);
    }
  }

  lemma {:induction false} PlacedIs(sets: Sets, order: seq<SetId>, removed: seq<SetId>, now: int, id: SetId)
    ensures var after := PlaceAll(sets, order, removed, now);
      && (id in after <==> id in sets)
      && (id in sets && id in order ==>
           after[id] == sets[id].(installed := true, archived := sets[id].archived && id in removed,
             installDate := if sets[id].installDate == 0 then now else sets[id].installDate))
      && (id in sets && id !in order ==> after[id] == sets[id])
    decreases |order|
  {
    if order != [] {
      assert forall x :: x in order <==> x == order[0] || x in order[1..];
      PlacedIs(PlaceOne(sets, order[0], removed, now), order[1..], removed, now, id);
    }
  }

  /** What a set is like when all is saved, if it is still known then. */
  function SavedAs(
    s: StickersSet, type_: StickersType, order: seq<SetId>, removed: seq<SetId>, now: int, id: SetId): StickersSet
  {
    var type1 := if s.emoji then Emoji else if s.masks then Masks else Stickers;
    var left := AfterRemoval(s, removed, id);
    if id in order then
      left.(installed := true,
            archived := s.archived && id in removed,
            installDate := if left.installDate == 0 then now else left.installDate)
    else if !s.archived && type1 == type_ then left.(installed := false)
    else left
  }

  /**
   * Each set is installed, archived and dated by itself, and stays known if it was, does not
   * go with the cloud sets, is not removed without being held, and something keeps it in the end.
   */
  lemma SavedIs(sets: Sets, type_: StickersType, order: seq<SetId>, removed: seq<SetId>, now: int, id: SetId)
    ensures var after := Saved(sets, type_, order, removed, now);
      && (id in after <==>
           && id in sets && !GoesWithCloud(removed, id) && (IsRemoved(sets[id], removed, id) ==> Stays(sets[id]))
           && var s := SavedAs(sets[id], type_, order, removed, now, id);
           s.featured || s.installed || s.archived || s.special || s.emoji || s.locked)
      && (id in after ==> after[id] == SavedAs(sets[id], type_, order, removed, now, id))
  {
    RemovedIs(sets, removed, id);
    PlacedIs(Cleared(RemoveAll(sets, removed), type_), order, removed, now, id);
  }

  /** Of a set that is left: it is of the saved type and not archived exactly if installed means being in the order. */
  lemma InstalledIffOrdered(sets: Sets, type_: StickersType, order: seq<SetId>, removed: seq<SetId>, now: int,
      id: SetId)
    requires id in Saved(sets, type_, order, removed, now)
    requires var s := Saved(sets, type_, order, removed, now)[id]; !s.archived && s.Type() == type_
    ensures Saved(sets, type_, order, removed, now)[id].installed <==> id in SavedOrder(sets, order, removed)
  {
    var r := RemoveAll(sets, removed);
    PlaceAllOne(Cleared(r, type_), order, removed, now, id);
    KnownIs(r, order, id);
  }

  /** Every set of the stored order is there and installed. */
  lemma OrderedAreInstalled(sets: Sets, type_: StickersType, order: seq<SetId>, removed: seq<SetId>, now: int,
      id: SetId)
    requires id in SavedOrder(sets, order, removed)
    ensures id in Saved(sets, type_, order, removed, now) && Saved(sets, type_, order, removed, now)[id].installed
  {
    var r := RemoveAll(sets, removed);
    PlaceAllOne(Cleared(r, type_), order, removed, now, id);
    KnownIs(r, order, id);
  }

  /** A removed set that was not archived is gone or not installed, unless the order brings it back. */
  lemma RemovedAreNotInstalled(sets: Sets, type_: StickersType, order: seq<SetId>, removed: seq<SetId>, now: int,
      id: SetId)
    requires id in removed && id in sets && !sets[id].archived && id !in order
    ensures id in Saved(sets, type_, order, removed, now) ==> !Saved(sets, type_, order, removed, now)[id].installed
  {
    RemoveAllOne(sets, removed, id);
    PlaceAllOne(Cleared(RemoveAll(sets, removed), type_), order, removed, now, id);
  }

  /** No set is left that meets none of the conditions for keeping it. */
  lemma NothingIdleIsLeft(sets: Sets, type_: StickersType, order: seq<SetId>, removed: seq<SetId>, now: int, id: SetId)
    requires id in Saved(sets, type_, order, removed, now)
    ensures Saved(sets, type_, order, removed, now)[id].Kept() && id in sets
  {
    RemoveAllOne(sets, removed, id);
    PlaceAllOne(Cleared(RemoveAll(sets, removed), type_), order, removed, now, id);
  }

  /** A set that is neither ordered nor removed, archived or of another type, and worth keeping, is not touched. */
  lemma OthersAreUntouched(sets: Sets, type_: StickersType, order: seq<SetId>, removed: seq<SetId>, now: int, id: SetId)
    requires id in sets && id !in order && id !in removed && !IsCloud(id) && id != CUSTOM
    requires sets[id].archived || sets[id].Type() != type_
    ensures id in Saved(sets, type_, order, removed, now) <==> sets[id].Kept()
    ensures id in Saved(sets, type_, order, removed, now) ==> Saved(sets, type_, order, removed, now)[id] == sets[id]
  {
    RemoveAllOne(sets, removed, id);
    PlaceAllOne(Cleared(RemoveAll(sets, removed), type_), order, removed, now, id);
  }

  /** Whether removing sets takes a sticker out of the recent pack. */
  ghost predicate LosesSticker(sets: Sets, removed: seq<SetId>, x: nat) {
    exists i :: 0 <= i < |removed| && (IsCloud(removed[i]) || (removed[i] in sets && x in sets[removed[i]].stickers))
  }

  lemma {:induction false} WithoutIs(recent: seq<nat>, stickers: set<nat>, x: nat)
    ensures x in Without(recent, stickers) <==> x in recent && x !in stickers
  {
    if recent != [] {
      WithoutIs(recent[1..], stickers, x);
    }
  }

  lemma LosesStickerFirst(sets: Sets, removed: seq<SetId>, x: nat)
    requires removed != []
    ensures LosesSticker(sets, removed, x)
      <==> LosesSticker(sets, [removed[0]], x) || LosesSticker(RemoveOne(sets, removed[0]), removed[1..], x)
  {
    var rest := RemoveOne(sets, removed[0]);
    if LosesSticker(sets, removed, x) && !LosesSticker(sets, [removed[0]], x) {
      var i :| 0 <= i < |removed| && (IsCloud(removed[i]) || (removed[i] in sets && x in sets[removed[i]].stickers));
      assert [removed[0]][0] == removed[0];
      assert removed[1..][i - 1] == removed[i];
    }
    if LosesSticker(rest, removed[1..], x) {
      var i :| 0 <= i < |removed[1..]|
        && (IsCloud(removed[1..][i]) || (removed[1..][i] in rest && x in rest[removed[1..][i]].stickers));
      assert removed[i + 1] == removed[1..][i];
    }
  }

  /** A sticker stays in the recent pack exactly if neither a cloud set nor a known set that holds it was removed. */
  lemma {:induction false} RecentKeeps(sets: Sets, recent: seq<nat>, removed: seq<SetId>, x: nat)
    ensures x in RecentAfter(sets, recent, removed) <==> x in recent && !LosesSticker(sets, removed, x)
    decreases |removed|
  {
    if removed != [] {
      var id := removed[0];
      RecentKeeps(RemoveOne(sets, id), RecentAfterOne(sets, recent, id), removed[1..], x);
      LosesStickerFirst(sets, removed, x);
      if id in sets { WithoutIs(recent, sets[id].stickers, x); }
      assert LosesSticker(sets, [id], x) <==> IsCloud(id) || (id in sets && x in sets[id].stickers) by {
        assert [id][0] == id;
      }
    }
  }

  /** An archived set of the order is asked to be installed, once, unless it was removed. */
  lemma {:induction false} InstallsAre(sets: Sets, order: seq<SetId>, removed: seq<SetId>, now: int, id: SetId)
    ensures multiset(Installs(sets, order, removed, now))[Install(id)]
         == if id in order && id in sets && sets[id].archived && id !in removed then 1 else 0
    decreases |order|
  {
    if order != [] {
      InstallsAre(PlaceOne(sets, order[0], removed, now), order[1..], removed, now, id);
    }
  }

  function Times(sets: Sets, removed: seq<SetId>, id: SetId): nat {
    if id !in sets || sets[id].archived then 0
    else if Stays(sets[id]) then multiset(removed)[id]
    else if id in removed then 1 else 0
  }

  lemma TimesStep(sets: Sets, removed: seq<SetId>, id: SetId)
    requires removed != [] && !IsCloud(id) && id != CUSTOM
    ensures Times(sets, removed, id)
         == multiset(UninstallOne(sets, removed[0]))[Uninstall(id)]
           + Times(RemoveOne(sets, removed[0]), removed[1..], id)
  {
    assert removed == [removed[0]] + removed[1..];
    if removed[0] != id {
      assert Uninstall(id) !in UninstallOne(sets, removed[0]);
    }
  }

  /** A removed set is asked to be uninstalled once; one that stays known, every time it is listed. */
  lemma {:induction false} UninstallsAre(sets: Sets, removed: seq<SetId>, id: SetId)
    requires !IsCloud(id) && id != CUSTOM
    ensures multiset(Uninstalls(sets, removed))[Uninstall(id)]
         == if id !in sets || sets[id].archived then 0
            else if Stays(sets[id]) then multiset(removed)[id]
            else if id in removed then 1 else 0
    decreases |removed|
  {
    assert Times(sets, removed, id) == multiset(Uninstalls(sets, removed))[Uninstall(id)] by {
      if removed != [] {
        TimesStep(sets, removed, id);
        UninstallsAre(RemoveOne(sets, removed[0]), removed[1..], id);
        hide RemoveOne, UninstallOne;
      }
    }
  }

  lemma {:induction false} CloudsAreNotUninstalled(sets: Sets, removed: seq<SetId>, id: SetId)
    requires id == CLOUD_RECENT || id == CLOUD_RECENT_ATTACHED
    ensures Uninstall(id) !in Uninstalls(sets, removed)
    decreases |removed|
  {
    if removed != [] {
      CloudsAreNotUninstalled(RemoveOne(sets, removed[0]), removed[1..], id);
    }
  }

  lemma {:induction false} OnlyUninstalls(sets: Sets, removed: seq<SetId>)
    ensures forall r :: r in Uninstalls(sets, removed) ==> r.Uninstall?
    decreases |removed|
  {
    if removed != [] {
      OnlyUninstalls(RemoveOne(sets, removed[0]), removed[1..]);
    }
  }

  lemma {:induction false} OnlyInstalls(sets: Sets, order: seq<SetId>, removed: seq<SetId>, now: int)
    ensures forall r :: r in Installs(sets, order, removed, now) ==> r.Install?
    decreases |order|
  {
    if order != [] {
      OnlyInstalls(PlaceOne(sets, order[0], removed, now), order[1..], removed, now);
    }
  }

  lemma NotAmong(requests: seq<Request>, request: Request)
    requires request !in requests
    ensures multiset(requests)[request] == 0
  {
  }

  /**
   * What one call asks for: an archived set of the order is installed once unless it was
   * removed, a removed set that is not archived is uninstalled, and the cloud sets never are.
   */
  lemma RequestsAre(sets: Sets, type_: StickersType, order: seq<SetId>, removed: seq<SetId>, now: int, id: SetId)
    ensures var requests := multiset(Requests(sets, type_, order, removed, now));
      && requests[Install(id)]
         == (if id in order && id in sets && sets[id].archived && id !in removed && !GoesWithCloud(removed, id)
             then 1 else 0)
      && (id == CLOUD_RECENT || id == CLOUD_RECENT_ATTACHED ==> requests[Uninstall(id)] == 0)
      && (!IsCloud(id) && id != CUSTOM ==>
           requests[Uninstall(id)]
           == if id !in sets || sets[id].archived then 0
              else if Stays(sets[id]) then multiset(removed)[id]
              else if id in removed then 1 else 0)
  {
    var cleared := Cleared(RemoveAll(sets, removed), type_);
    RemovedIs(sets, removed, id);
    InstallsAre(cleared, order, removed, now, id);
    OnlyUninstalls(sets, removed);
    OnlyInstalls(cleared, order, removed, now);
    if IsCloud(id) {
      CloudsAreNotUninstalled(sets, removed, id);
    } else if id != CUSTOM {
      UninstallsAre(sets, removed, id);
    }
    var uninstalls, installs := Uninstalls(sets, removed), Installs(cleared, order, removed, now);
    hide Uninstalls, Installs, RemoveAll;
    NotAmong(uninstalls, Install(id));
    NotAmong(installs, Uninstall(id));
    assert id in cleared <==> id in RemoveAll(sets, removed);
    assert Requests(sets, type_, order, removed, now) == uninstalls + installs;
  }

  /** Both the order and the recent pack are gone through from front to back. */
  lemma {:induction false} OrderIsKept(sets: Sets, a: seq<SetId>, b: seq<SetId>)
    ensures Known(sets, a + b) == Known(sets, a) + Known(sets, b)
    decreases |a|
  {
    if a == [] {
      assert a + b == b;
    } else {
      assert (a + b)[1..] == a[1..] + b;
      OrderIsKept(sets, a[1..], b);
    }
  }

  lemma {:induction false} RecentOrderIsKept(a: seq<nat>, b: seq<nat>, stickers: set<nat>)
    ensures Without(a + b, stickers) == Without(a, stickers) + Without(b, stickers)
    ensures forall x :: Without([x], stickers) == if x in stickers then [] else [x]
    decreases |a|
  {
    if a == [] {
      assert a + b == b;
    } else {
      assert (a + b)[1..] == a[1..] + b;
      RecentOrderIsKept(a[1..], b, stickers);
    }
  }

  // ---- Overlapping calls for one type of sets ----

  /** What is on the network: an install or uninstall, or a reorder, with the call that sent it. */
  datatype Sent = Disenable(call: nat, order: seq<SetId>) | Reorder(call: nat, order: seq<SetId>)

  /** A reorder that was sent. */
  datatype Reordered = Reordered(call: nat, order: seq<SetId>)

  datatype Sequence = Sequence(
    disenable: set<nat>,
    reorderId: nat,
    nextId: nat,
    inFlight: map<nat, Sent>,
    calls: seq<seq<SetId>>,
    reorders: seq<Reordered>)

  const INITIAL := Sequence({}, 0, 1, map[], [], [])

  /** stickersSaveOrder of a call. */
  function SaveOrder(q: Sequence, call: nat, order: seq<SetId>): Sequence {
    if |order| < 2 then q
    else
      q.(reorderId := q.nextId,
         nextId := q.nextId + 1,
         inFlight := q.inFlight[q.nextId := Reorder(call, order)],
         reorders := q.reorders + [Reordered(call, order)])
  }

  /** A call starts by cancelling what the calls before it have on the network. */
  function Cancelled(q: Sequence, order: seq<SetId>): Sequence {
    q.(disenable := {}, reorderId := 0, inFlight := q.inFlight - q.disenable - {q.reorderId},
      calls := q.calls + [order])
  }

  function SendDisenable(q: Sequence): Sequence
    requires q.calls != []
  {
    var call := |q.calls| - 1;
    q.(disenable := q.disenable + {q.nextId},
       nextId := q.nextId + 1,
       inFlight := q.inFlight[q.nextId := Disenable(call, q.calls[call])])
  }

  function SendDisenables(q: Sequence, count: nat): (r: Sequence)
    requires q.calls != []
    ensures r.calls == q.calls
    decreases count
  {
    if count == 0 then q else SendDisenable(SendDisenables(q, count - 1))
  }

  /** A call of saveStickerSets that has so many sets to install or uninstall. */
  function Call(q: Sequence, order: seq<SetId>, count: nat): Sequence {
    var sent := SendDisenables(Cancelled(q, order), count);
    if sent.disenable == {} then SaveOrder(sent, |q.calls|, order) else sent
  }

  /** An answer, of either kind, to a request on the network. */
  function Answer(q: Sequence, id: nat): Sequence
    requires id in q.inFlight
  {
    var sent := q.inFlight[id];
    var rest := q.(inFlight := q.inFlight - {id});
    match sent
    case Reorder(_, _) => rest.(reorderId := 0)
    case Disenable(call, order) =>
      var left := rest.(disenable := q.disenable - {id});
      if left.disenable == {} then SaveOrder(left, call, order) else left
  }

  /** The requests on the network are those of the latest call, and the stored ids are exactly theirs. */
  ghost predicate NetworkIsLatest(q: Sequence) {
    && (forall id :: id in q.inFlight ==> 0 < id < q.nextId)
    && (forall id :: id in q.disenable <==> id in q.inFlight && q.inFlight[id].Disenable?)
    && (forall id :: id in q.inFlight ==>
      0 < |q.calls| && q.inFlight[id].call == |q.calls| - 1 && q.inFlight[id].order == q.calls[|q.calls| - 1])
    && (q.reorderId != 0 <==> q.reorderId in q.inFlight && q.inFlight[q.reorderId].Reorder?)
    && (forall id :: id in q.inFlight && q.inFlight[id].Reorder? ==> id == q.reorderId)
  }

  /** A reorder is on the network only when no install or uninstall is. */
  ghost predicate OneAfterTheOther(q: Sequence) {
    q.reorderId != 0 ==> q.disenable == {}
  }

  /** Each call sends at most one reorder, with its own order. */
  ghost predicate ReordersAreOnce(q: Sequence) {
    && (forall i :: 0 <= i < |q.reorders| ==>
      q.reorders[i].call < |q.calls| && q.reorders[i].order == q.calls[q.reorders[i].call])
    && (forall i, j :: 0 <= i < j < |q.reorders| ==> q.reorders[i].call < q.reorders[j].call)
  }

  /** The latest call has sent its reorder, if its order is worth one, exactly when nothing else of it is unanswered. */
  ghost predicate LatestIsServed(q: Sequence) {
    q.calls != [] ==>
      var last := |q.calls| - 1;
      Reordered(last, q.calls[last]) in q.reorders <==> q.disenable == {} && |q.calls[last]| >= 2
  }

  ghost predicate Inv(q: Sequence) {
    q.nextId > 0 && NetworkIsLatest(q) && OneAfterTheOther(q) && ReordersAreOnce(q) && LatestIsServed(q)
  }

  /** Cancelling leaves nothing of this type on the network. */
  lemma CancellingClears(q: Sequence, order: seq<SetId>)
    requires NetworkIsLatest(q)
    ensures Cancelled(q, order).inFlight == map[]
  {
    forall id | id in q.inFlight ensures id in q.disenable || id == q.reorderId {
    }
  }

  /** The requests of the latest call so far, before any reorder. */
  ghost predicate Sending(q: Sequence, count: nat) {
    && q.nextId > 0 && q.calls != [] && NetworkIsLatest(q) && q.reorderId == 0 && |q.disenable| == count
    && ReordersAreOnce(q) && forall i :: 0 <= i < |q.reorders| ==> q.reorders[i].call < |q.calls| - 1
  }

  lemma SendingStarts(q: Sequence, order: seq<SetId>)
    requires Inv(q)
    ensures Sending(Cancelled(q, order), 0)
  {
    CancellingClears(q, order);
    hide OneAfterTheOther, LatestIsServed;
  }

  lemma SendingStep(q: Sequence, count: nat)
    requires Sending(q, count)
    ensures Sending(SendDisenable(q), count + 1)
  {
    assert q.nextId !in q.disenable;
    assert NetworkIsLatest(SendDisenable(q));
    hide NetworkIsLatest;
  }

  lemma {:induction false} SendingAll(q: Sequence, count: nat)
    requires q.calls != [] && Sending(q, 0)
    ensures Sending(SendDisenables(q, count), count)
    decreases count
  {
    hide Sending, SendDisenable;
    if count > 0 {
      SendingAll(q, count - 1);
      SendingStep(SendDisenables(q, count - 1), count - 1);
    }
  }

  /** With nothing else unanswered the latest call sends its reorder, its first. */
  lemma SavingOrderKeeps(q: Sequence)
    requires Sending(q, 0)
    ensures var last := |q.calls| - 1; Inv(SaveOrder(q, last, q.calls[last]))
  {
    var last := |q.calls| - 1;
    var q' := SaveOrder(q, last, q.calls[last]);
    assert q.disenable == {};
    if |q.calls[last]| >= 2 {
      assert q'.reorders[|q.reorders|] == Reordered(last, q.calls[last]);
      assert NetworkIsLatest(q');
      hide NetworkIsLatest;
    } else {
      SentNothingYet(q);
      hide NetworkIsLatest;
    }
  }

  lemma SentNothingYet(q: Sequence)
    requires q.calls != [] && forall i :: 0 <= i < |q.reorders| ==> q.reorders[i].call < |q.calls| - 1
    ensures Reordered(|q.calls| - 1, q.calls[|q.calls| - 1]) !in q.reorders
  {
  }

  lemma CallKeeps(q: Sequence, order: seq<SetId>, count: nat)
    requires Inv(q)
    ensures Inv(Call(q, order, count))
  {
    var c := Cancelled(q, order);
    var sent := SendDisenables(c, count);
    SendingStarts(q, order);
    SendingAll(c, count);
    assert sent.calls == q.calls + [order];
    hide SendDisenables, Cancelled, NetworkIsLatest, ReordersAreOnce, SaveOrder;
    if sent.disenable == {} {
      SavingOrderKeeps(sent);
    } else {
      SentNothingYet(sent);
    }
  }

  lemma AnswerReorderKeeps(q: Sequence, id: nat)
    requires Inv(q) && id in q.inFlight && q.inFlight[id].Reorder?
    ensures Inv(Answer(q, id))
  {
    assert NetworkIsLatest(Answer(q, id));
    hide NetworkIsLatest, ReordersAreOnce;
  }

  /** An answered install or uninstall is taken out of the stored ids. */
  function Disenabled(q: Sequence, id: nat): Sequence {
    q.(inFlight := q.inFlight - {id}, disenable := q.disenable - {id})
  }

  lemma DisenabledKeeps(q: Sequence, id: nat)
    requires Inv(q) && id in q.inFlight && q.inFlight[id].Disenable?
    ensures q.calls != [] && q.inFlight[id] == Disenable(|q.calls| - 1, q.calls[|q.calls| - 1])
    ensures NetworkIsLatest(Disenabled(q, id)) && Disenabled(q, id).reorderId == 0
    ensures Reordered(|q.calls| - 1, q.calls[|q.calls| - 1]) !in q.reorders
  {
    hide ReordersAreOnce;
    assert id in q.disenable;
  }

  lemma EarlierReorders(q: Sequence)
    requires q.calls != [] && ReordersAreOnce(q) && Reordered(|q.calls| - 1, q.calls[|q.calls| - 1]) !in q.reorders
    ensures forall i :: 0 <= i < |q.reorders| ==> q.reorders[i].call < |q.calls| - 1
  {
    forall i | 0 <= i < |q.reorders| ensures q.reorders[i].call < |q.calls| - 1 {
      assert q.reorders[i] in q.reorders && q.reorders[i] == Reordered(q.reorders[i].call, q.calls[q.reorders[i].call]);
    }
  }

  lemma AnswerDisenableKeeps(q: Sequence, id: nat)
    requires Inv(q) && id in q.inFlight && q.inFlight[id].Disenable?
    ensures Inv(Answer(q, id))
  {
    DisenabledKeeps(q, id);
    EarlierReorders(q);
    var left := Disenabled(q, id);
    hide NetworkIsLatest;
    assert ReordersAreOnce(left);
    hide ReordersAreOnce, SaveOrder;
    if left.disenable == {} {
      SavingOrderKeeps(left);
    }
  }

  // ---- Whole runs ----

  datatype Event = DoCall(order: seq<SetId>, count: nat) | DoAnswer(id: nat)

  function Step(q: Sequence, event: Event): Sequence {
    match event
    case DoCall(order, count) => Call(q, order, count)
    case DoAnswer(id) => if id in q.inFlight then Answer(q, id) else q
  }

  function Run(events: seq<Event>): Sequence
    decreases |events|
  {
    if events == [] then INITIAL else Step(Run(events[..|events| - 1]), events[|events| - 1])
  }

  lemma {:induction false} EveryRunKeeps(events: seq<Event>)
    ensures Inv(Run(events))
    decreases |events|
  {
    if events == [] {
      InitialKeeps();
    } else {
      hide Inv, Call, Answer;
      var q := Run(events[..|events| - 1]);
      EveryRunKeeps(events[..|events| - 1]);
      match events[|events| - 1]
      case DoCall(order, count) => CallKeeps(q, order, count);
      case DoAnswer(id) =>
        if id in q.inFlight {
          if q.inFlight[id].Reorder? { AnswerReorderKeeps(q, id); } else { AnswerDisenableKeeps(q, id); }
        }
    }
  }

  lemma InitialKeeps()
    ensures Inv(INITIAL)
  {
  }

  /** The stored ids are exactly the unanswered installs and uninstalls, all of them of the latest call. */
  lemma StoredIdsAreLatest(events: seq<Event>, id: nat)
    ensures var q := Run(events);
      && (id in q.disenable <==> id in q.inFlight && q.inFlight[id].Disenable?)
      && (id in q.inFlight ==> q.inFlight[id].call == |q.calls| - 1)
  {
    EveryRunKeeps(events);
    hide Run, ReordersAreOnce, LatestIsServed;
  }

  /** At most one reorder is on the network, and then no install or uninstall is. */
  lemma OneReorderAtATime(events: seq<Event>, i: nat, j: nat)
    requires var q := Run(events); i in q.inFlight && j in q.inFlight && q.inFlight[i].Reorder?
    ensures i == j && Run(events).disenable == {}
  {
    EveryRunKeeps(events);
    hide Run, ReordersAreOnce, LatestIsServed;
    assert i == Run(events).reorderId;
  }

  /** No call sends two reorders, and each carries the order of its call. */
  lemma ReorderOncePerCall(events: seq<Event>, i: nat, j: nat)
    requires i < |Run(events).reorders| && j < |Run(events).reorders|
      && Run(events).reorders[i].call == Run(events).reorders[j].call
    ensures i == j
    ensures var r := Run(events).reorders[i]; r.call < |Run(events).calls| && r.order == Run(events).calls[r.call]
  {
    EveryRunKeeps(events);
    hide Run, NetworkIsLatest, LatestIsServed;
  }

  /** At rest the latest call has sent its reorder if it saved two sets or more. */
  lemma LatestOrderIsSent(events: seq<Event>)
    requires Run(events).inFlight == map[] && Run(events).calls != []
    ensures var q := Run(events); var last := |q.calls| - 1;
      Reordered(last, q.calls[last]) in q.reorders <==> |q.calls[last]| >= 2
  {
    EveryRunKeeps(events);
    hide Run, ReordersAreOnce;
    assert Run(events).disenable == {};
  }

  lemma {:induction false} NewIdsAreSent(q: Sequence, count: nat)
    requires q.calls != [] && q.disenable == {}
    ensures var q' := SendDisenables(q, count);
      q.nextId <= q'.nextId && forall id :: id in q'.disenable ==> q.nextId <= id
    decreases count
  {
    if count > 0 {
      NewIdsAreSent(q, count - 1);
    }
  }

  /**
   * In every run a call cancels all that is on the network and sends as many installs and
   * uninstalls as it has; with none to send it sends its reorder at once.
   */
  lemma CallSends(events: seq<Event>, order: seq<SetId>, count: nat)
    ensures var q, q' := Run(events), Call(Run(events), order, count);
      && |q'.disenable| == count && q'.disenable !! q.inFlight.Keys
      && (forall id :: id in q'.inFlight <==> id in q'.disenable || (id == q'.reorderId && id != 0))
      && (q'.reorderId != 0 <==> count == 0 && |order| >= 2)
      && q'.calls == q.calls + [order]
  {
    EveryRunKeeps(events);
    hide Run, Inv;
    var q := Run(events);
    var c := Cancelled(q, order);
    var sent := SendDisenables(c, count);
    SendingStarts(q, order);
    SendingAll(c, count);
    NewIdsAreSent(c, count);
    IdsAreUsed(q);
    hide SendDisenables, ReordersAreOnce, Cancelled;
    assert count == 0 <==> sent.disenable == {};
  }

  lemma IdsAreUsed(q: Sequence)
    requires Inv(q)
    ensures forall id :: id in q.inFlight ==> id < q.nextId
  {
    hide ReordersAreOnce, LatestIsServed;
  }

  // ---- The object that the source updates in place ----

  lemma SendNone(q: Sequence)
    requires q.calls != []
    ensures SendDisenables(q, 0) == q
  {
  }

  lemma SendOne(q: Sequence)
    requires q.calls != []
    ensures SendDisenables(q, 1) == SendDisenable(q)
  {
    assert SendDisenables(q, 1) == SendDisenable(SendDisenables(q, 0));
  }

  lemma {:induction false} SendMore(q: Sequence, first: nat, more: nat)
    requires q.calls != []
    ensures SendDisenables(SendDisenables(q, first), more) == SendDisenables(q, first + more)
    decreases more
  {
    if more > 0 {
      SendMore(q, first, more - 1);
    }
  }

  /** A call sends its uninstalls, then its installs, and then perhaps its reorder. */
  lemma CallIs(q: Sequence, order: seq<SetId>, uninstalls: nat, installs: nat)
    ensures var sent := SendDisenables(SendDisenables(Cancelled(q, order), uninstalls), installs);
      Call(q, order, uninstalls + installs) == if sent.disenable == {} then SaveOrder(sent, |q.calls|, order) else sent
  {
    SendMore(Cancelled(q, order), uninstalls, installs);
  }

  lemma {:induction false} SameKeysKnowTheSame(a: Sets, b: Sets, order: seq<SetId>)
    requires a.Keys == b.Keys
    ensures Known(a, order) == Known(b, order)
    decreases |order|
  {
    if order != [] {
      SameKeysKnowTheSame(a, b, order[1..]);
    }
  }

  lemma PlacingKnows(sets: Sets, id: SetId, removed: seq<SetId>, now: int, order: seq<SetId>)
    ensures Known(PlaceOne(sets, id, removed, now), order) == Known(sets, order)
  {
    SameKeysKnowTheSame(PlaceOne(sets, id, removed, now), sets, order);
  }

  lemma KnownAfterClearing(sets: Sets, type_: StickersType, order: seq<SetId>)
    ensures Known(Cleared(sets, type_), order) == Known(sets, order)
  {
    SameKeysKnowTheSame(Cleared(sets, type_), sets, order);
  }

  function RemoveFirst(order: seq<SetId>, id: SetId): seq<SetId> {
    if order == [] then [] else if order[0] == id then order[1..] else [order[0]] + RemoveFirst(order[1..], id)
  }

  /** The loop that erases the removed set's stickers from the recent pack. */
  method EraseRecent(recent: seq<nat>, stickers: set<nat>) returns (left: seq<nat>)
    ensures left == Without(recent, stickers)
  {
    left := recent;
    var i := 0;
    while i < |left|
      invariant 0 <= i <= |left|
      invariant Without(recent, stickers) == left[..i] + Without(left[i..], stickers)
      decreases |left| - i
    {
      if left[i] in stickers {
        ghost var before := left;
        left := left[..i] + left[i + 1..];
        assert before[i..][1..] == left[i..] && before[..i] == left[..i];
      } else {
        assert left[i..][1..] == left[i + 1..];
        assert left[..i + 1] == left[..i] + [left[i]];
        i := i + 1;
      }
    }
    assert left[..i] == left;
  }

  /** The loop that clears the installed flags of one type. */
  method ClearInstalled(sets: Sets, type_: StickersType) returns (cleared: Sets)
    ensures cleared == Cleared(sets, type_)
  {
    cleared := sets;
    var left := sets.Keys;
    while left != {}
      invariant left <= sets.Keys == cleared.Keys
      invariant forall id :: id in left ==> cleared[id] == sets[id]
      invariant forall id :: id in sets && id !in left ==> cleared[id] == ClearOne(sets[id], type_)
      decreases |left|
    {
      var id := Least(left);
      left := left - {id};
      if !cleared[id].archived && cleared[id].Type() == type_ {
        cleared := cleared[id := cleared[id].(installed := false)];
      }
    }
  }

  /** The loop that erases the sets nothing holds any more. */
  method Sweep(sets: Sets) returns (swept: Sets)
    ensures swept == Swept(sets)
  {
    swept := sets;
    var left := sets.Keys;
    while left != {}
      invariant left <= swept.Keys <= sets.Keys
      invariant forall id :: id in swept ==> swept[id] == sets[id]
      invariant forall id :: id in sets ==> (id in swept <==> id in left || sets[id].Kept())
      decreases |left|
    {
      var id := Least(left);
      left := left - {id};
      if !swept[id].Kept() {
        swept := swept - {id};
      }
    }
  }

  /** The flags and the date of a set that is put in place. */
  method MarkInstalled(s: StickersSet, installs: bool, now: int) returns (placed: StickersSet)
    requires installs ==> s.archived
    ensures placed == Placed(s, !installs, now)
  {
    placed := s;
    if installs {
      placed := placed.(archived := false);
    }
    placed := placed.(installed := true);
    if placed.installDate == 0 {
      placed := placed.(installDate := now);
    }
  }

  class ApiWrap {
    const type_: StickersType
    var sets: Sets
    var order: seq<SetId>
    var recent: seq<nat>
    var setDisenableRequests: set<nat>
    var reorderRequestId: nat
    var nextRequestId: nat
    var inFlight: map<nat, Sent>
    var requested: seq<Request>
    var calls: seq<seq<SetId>>
    var reorders: seq<Reordered>

    ghost function Abs(): Sequence
      reads this
    {
      Sequence(setDisenableRequests, reorderRequestId, nextRequestId, inFlight, calls, reorders)
    }

    constructor (type_: StickersType, sets: Sets, order: seq<SetId>, recent: seq<nat>)
      ensures Abs() == INITIAL && Inv(Abs()) && this.type_ == type_ && this.sets == sets && this.order == order
        && this.recent == recent
    {
      this.type_, this.sets, this.order, this.recent := type_, sets, order, recent;
      setDisenableRequests, reorderRequestId, nextRequestId, inFlight := {}, 0, 1, map[];
      requested, calls, reorders := [], [], [];
    }

    /** Sends an install or uninstall for the call that is under way. */
    method SendRequest(request: Request)
      requires calls != []
      modifies `setDisenableRequests, `nextRequestId, `inFlight, `requested
      ensures Abs() == SendDisenable(old(Abs())) && requested == old(requested) + [request]
    {
      var requestId := nextRequestId;
      nextRequestId := nextRequestId + 1;
      inFlight := inFlight[requestId := Disenable(|calls| - 1, calls[|calls| - 1])];
      setDisenableRequests := setDisenableRequests + {requestId};
      requested := requested + [request];
    }

    method StickersSaveOrder(call: nat, localOrder: seq<SetId>)
      modifies `reorderRequestId, `nextRequestId, `inFlight, `reorders
      ensures Abs() == SaveOrder(old(Abs()), call, localOrder)
    {
      if |localOrder| < 2 {
        return;
      }
      reorderRequestId := nextRequestId;
      nextRequestId := nextRequestId + 1;
      inFlight := inFlight[reorderRequestId := Reorder(call, localOrder)];
      reorders := reorders + [Reordered(call, localOrder)];
    }

    /** The removal of one set. */
    method RemoveSet(id: SetId)
      requires calls != []
      modifies `sets, `order, `recent, `setDisenableRequests, `nextRequestId, `inFlight, `requested
      ensures sets == RemoveOne(old(sets), id) && recent == RecentAfterOne(old(sets), old(recent), id)
      ensures requested == old(requested) + UninstallOne(old(sets), id)
      ensures Abs() == SendDisenables(old(Abs()), |UninstallOne(old(sets), id)|)
      ensures calls == old(calls)
    {
      if IsCloud(id) {
        sets, recent := sets - {CLOUD_RECENT, CLOUD_RECENT_ATTACHED, CUSTOM}, [];
        return;
      }
      if id !in sets {
        return;
      }
      recent := EraseRecent(recent, sets[id].stickers);
      if !sets[id].archived {
        SendOne(Abs());
        SendRequest(Uninstall(id));
        order := RemoveFirst(order, id);
        if !sets[id].featured && !sets[id].special && !sets[id].emoji && !sets[id].locked {
          sets := sets - {id};
        } else {
          sets := sets[id := sets[id].(installed := false, archived := false, installDate := 0)];
        }
      }
    }

    /** The loop over the removed sets. */
    method RemoveSets(localRemoved: seq<SetId>)
      requires calls != []
      modifies `sets, `order, `recent, `setDisenableRequests, `nextRequestId, `inFlight, `requested
      ensures sets == RemoveAll(old(sets), localRemoved) && recent == RecentAfter(old(sets), old(recent), localRemoved)
      ensures requested == old(requested) + Uninstalls(old(sets), localRemoved)
      ensures Abs() == SendDisenables(old(Abs()), |Uninstalls(old(sets), localRemoved)|) && calls == old(calls)
    {
      hide RemoveOne, RecentAfterOne, UninstallOne, SendDisenables;
      assert SendDisenables(Abs(), 0) == Abs() by { SendNone(Abs()); }
      var i := 0;
      while i < |localRemoved|
        invariant 0 <= i <= |localRemoved| && calls == old(calls)
        invariant RemoveAll(old(sets), localRemoved) == RemoveAll(sets, localRemoved[i..])
        invariant RecentAfter(old(sets), old(recent), localRemoved) == RecentAfter(sets, recent, localRemoved[i..])
        invariant old(requested) + Uninstalls(old(sets), localRemoved)
          == requested + Uninstalls(sets, localRemoved[i..])
        invariant |requested| >= |old(requested)| && Abs() == SendDisenables(old(Abs()), |requested| - |old(requested)|)
      {
        var removedSetId := localRemoved[i];
        assert localRemoved[i..][0] == removedSetId && localRemoved[i..][1..] == localRemoved[i + 1..];
        SendMore(old(Abs()), |requested| - |old(requested)|, |UninstallOne(sets, removedSetId)|);
        RemoveSet(removedSetId);
        i := i + 1;
      }
    }

    /** One set of the saved order. */
    method PlaceSet(id: SetId, localRemoved: seq<SetId>, now: int)
      requires calls != []
      modifies `sets, `order, `setDisenableRequests, `nextRequestId, `inFlight, `requested
      ensures sets == PlaceOne(old(sets), id, localRemoved, now)
      ensures order == old(order) + if id in old(sets) then [id] else []
      ensures requested == old(requested) + InstallOne(old(sets), id, localRemoved)
      ensures Abs() == SendDisenables(old(Abs()), |InstallOne(old(sets), id, localRemoved)|)
      ensures calls == old(calls)
    {
      SendNone(Abs());
      SendOne(Abs());
      hide SendDisenable, SendDisenables, Placed;
      if id !in sets {
        return;
      }
      var installs := sets[id].archived && id !in localRemoved;
      if installs {
        SendRequest(Install(id));
      }
      var placed := MarkInstalled(sets[id], installs, now);
      order := order + [id];
      sets := sets[id := placed];
    }

    /** The loop over the saved order. */
    method PlaceSets(localOrder: seq<SetId>, localRemoved: seq<SetId>, now: int)
      requires calls != []
      modifies `sets, `order, `setDisenableRequests, `nextRequestId, `inFlight, `requested
      ensures sets == PlaceAll(old(sets), localOrder, localRemoved, now) && order == Known(old(sets), localOrder)
      ensures requested == old(requested) + Installs(old(sets), localOrder, localRemoved, now)
      ensures Abs() == SendDisenables(old(Abs()), |Installs(old(sets), localOrder, localRemoved, now)|)
        && calls == old(calls)
    {
      hide PlaceOne, InstallOne, SendDisenables;
      assert SendDisenables(Abs(), 0) == Abs() by { SendNone(Abs()); }
      order := [];
      var i := 0;
      while i < |localOrder|
        invariant 0 <= i <= |localOrder| && calls == old(calls)
        invariant PlaceAll(old(sets), localOrder, localRemoved, now)
          == PlaceAll(sets, localOrder[i..], localRemoved, now)
        invariant Known(old(sets), localOrder) == order + Known(sets, localOrder[i..])
        invariant old(requested) + Installs(old(sets), localOrder, localRemoved, now)
               == requested + Installs(sets, localOrder[i..], localRemoved, now)
        invariant |requested| >= |old(requested)| && Abs() == SendDisenables(old(Abs()), |requested| - |old(requested)|)
      {
        var setId := localOrder[i];
        assert localOrder[i..][0] == setId && localOrder[i..][1..] == localOrder[i + 1..];
        SendMore(old(Abs()), |requested| - |old(requested)|, |InstallOne(sets, setId, localRemoved)|);
        PlacingKnows(sets, setId, localRemoved, now, localOrder[i + 1..]);
        PlaceSet(setId, localRemoved, now);
        i := i + 1;
      }
    }

    /** What a call does first; it is the latest call from here on. */
    method CancelRequests(localOrder: seq<SetId>)
      modifies `inFlight, `setDisenableRequests, `reorderRequestId, `calls
      ensures Abs() == Cancelled(old(Abs()), localOrder) && calls == old(calls) + [localOrder]
    {
      inFlight := inFlight - setDisenableRequests - {reorderRequestId};
      setDisenableRequests, reorderRequestId := {}, 0;
      calls := calls + [localOrder];
    }

    method SaveStickerSets(localOrder: seq<SetId>, localRemoved: seq<SetId>, now: int)
      requires Inv(Abs())
      modifies this
      ensures sets == Saved(old(sets), type_, localOrder, localRemoved, now)
      ensures order == SavedOrder(old(sets), localOrder, localRemoved)
      ensures recent == RecentAfter(old(sets), old(recent), localRemoved)
      ensures requested == old(requested) + Requests(old(sets), type_, localOrder, localRemoved, now)
      ensures Abs() == Call(old(Abs()), localOrder, |Requests(old(sets), type_, localOrder, localRemoved, now)|)
      ensures Inv(Abs())
    {
      hide Inv, SendDisenables, RemoveAll, Cleared, PlaceAll, Swept, Known, Uninstalls, Installs, RecentAfter,
        SaveOrder, Call, Cancelled;
      ghost var before, uninstalls := Abs(), Uninstalls(sets, localRemoved);
      ghost var installs := Installs(Cleared(RemoveAll(sets, localRemoved), type_), localOrder, localRemoved, now);
      CallKeeps(before, localOrder, |uninstalls + installs|);
      CallIs(before, localOrder, |uninstalls|, |installs|);
      CancelRequests(localOrder);
      RemoveSets(localRemoved);
      KnownAfterClearing(sets, type_, localOrder);
      sets := ClearInstalled(sets, type_);
      PlaceSets(localOrder, localRemoved, now);
      sets := Sweep(sets);
      if setDisenableRequests == {} {
        StickersSaveOrder(|calls| - 1, localOrder);
      }
    }

    /** An answer, of either kind, to an install, an uninstall or a reorder. */
    method ReceiveAnswer(requestId: nat)
      requires Inv(Abs()) && requestId in inFlight
      modifies `inFlight, `setDisenableRequests, `reorderRequestId, `nextRequestId, `reorders
      ensures Abs() == Answer(old(Abs()), requestId) && Inv(Abs())
    {
      if inFlight[requestId].Reorder? {
        AnswerReorderKeeps(Abs(), requestId);
      } else {
        AnswerDisenableKeeps(Abs(), requestId);
      }
      hide Inv, SaveOrder;
      var sent := inFlight[requestId];
      inFlight := inFlight - {requestId};
      match sent
      case Reorder(_, _) => reorderRequestId := 0;
      case Disenable(call, localOrder) =>
        setDisenableRequests := setDisenableRequests - {requestId};
        if setDisenableRequests == {} {
          StickersSaveOrder(call, localOrder);
        }
    }
  }
}
