// The cache of a user's own invite links in Api::InviteLinks: the permanent link
// of a peer stays at the front of its first slice and agrees with the link that
// is stored on the peer.
module InviteLinks {

  type PeerId = nat

  /** A link string; 0 is the empty string. */
  type LinkId = nat

  /** An invite link; `rest` stands for its label, dates and limits. */
  datatype Link = Link(link: LinkId, permanent: bool, revoked: bool, usage: int, rest: nat)
  {
    predicate Live() {
      permanent && !revoked
    }
  }

  /** A parsed invite; a public join request is not a link. */
  datatype Parsed = NoLink | Some(link: Link)

  datatype Links = Links(links: seq<Link>, count: int)

  const EMPTY := Links([], 0)

  /** What is kept of one peer: the first slice, if there is one, and the link stored on the peer. */
  datatype Cached = Cached(known: bool, slice: Links, stored: LinkId)

  const UNKNOWN := Cached(false, EMPTY, 0)

  // ---- The operations on one peer, as functions ----

  predicate HasPermanent(links: seq<Link>) {
    links != [] && links[0].Live()
  }

  function Decremented(count: int): int {
    if count > 0 then count - 1 else count
  }

  /** Where the first live permanent link is; the length if there is none. */
  function FirstLive(links: seq<Link>): (at: nat)
    ensures at <= |links|
    ensures at < |links| ==> links[at].Live()
    ensures forall i :: 0 <= i < at ==> !links[i].Live()
  {
    if links == [] then 0 else if links[0].Live() then 0 else 1 + FirstLive(links[1..])
  }

  function Rotated(links: seq<Link>, at: nat): seq<Link>
    requires at < |links|
  {
    [links[at]] + links[..at] + links[at + 1..]
  }

  function PermanentToFront(links: seq<Link>): seq<Link> {
    var at := FirstLive(links);
    if 0 < at < |links| then Rotated(links, at) else links
  }

  function WithoutLive(links: seq<Link>): seq<Link> {
    if links == [] then []
    else if links[0].Live() then WithoutLive(links[1..])
    else [links[0]] + WithoutLive(links[1..])
  }

  /** Where the first link with a string is; the length if there is none. */
  function FindLink(links: seq<Link>, link: LinkId): (at: nat)
    ensures at <= |links|
    ensures at < |links| ==> links[at].link == link
    ensures forall i :: 0 <= i < at ==> links[i].link != link
  {
    if links == [] then 0 else if links[0].link == link then 0 else 1 + FindLink(links[1..], link)
  }

  /** prependMyToFirstSlice. */
  function PrependMy(c: Cached, link: Link): Cached {
    var links, count, had := c.slice.links, c.slice.count, HasPermanent(c.slice.links);
    var slice :=
      if had && link.permanent then Links([link] + links[1..], Decremented(count) + 1)
      else if had then Links([links[0], link] + links[1..], count + 1)
      else Links([link] + links, count + 1);
    Cached(true, slice, if link.permanent then link.link else c.stored)
  }

  /** What an answer to an edit of a link does to the cached slice. */
  function Edited(c: Cached, key: LinkId, link: Link): Cached {
    var at := FindLink(c.slice.links, key);
    if !c.known || at == |c.slice.links| then c
    else if link.revoked && !c.slice.links[at].revoked then
      c.(slice := Links(c.slice.links[..at] + c.slice.links[at + 1..], Decremented(c.slice.count)))
    else c.(slice := c.slice.(links := c.slice.links[at := link]))
  }

  /** Whether a parsed link is the permanent one that is cached. */
  predicate IsCachedPermanent(c: Cached, link: LinkId) {
    HasPermanent(c.slice.links) && link == c.slice.links[0].link
  }

  function ParseOne(c: Cached, invite: Parsed): seq<Link> {
    if invite.NoLink? || IsCachedPermanent(c, invite.link.link) then [] else [invite.link]
  }

  /** parseSlice: the links of a page, without the permanent one that is cached. */
  function ParseLinks(c: Cached, page: seq<Parsed>): seq<Link> {
    if page == [] then [] else ParseOne(c, page[0]) + ParseLinks(c, page[1..])
  }

  function Max(a: int, b: int): int {
    if a < b then b else a
  }

  /** The answer to requestMyLinks. */
  function Reloaded(c: Cached, count: int, page: seq<Parsed>): Cached {
    var parsed := ParseLinks(c, page);
    if !HasPermanent(c.slice.links) then
      var links := PermanentToFront(parsed);
      Cached(true, Links(links, count), if HasPermanent(links) then links[0].link else c.stored)
    else
      var links := [c.slice.links[0]] + WithoutLive(parsed);
      c.(slice := Links(links, Max(count, |links|)))
  }

  function SetMyPermanent(c: Cached, invite: Parsed): Cached {
    if invite.NoLink? || !invite.link.permanent then c
    else
      var link, links, count := invite.link, c.slice.links, c.slice.count;
      if !HasPermanent(links) then Cached(true, Links([link] + links, count), link.link)
      else if links[0].link == link.link then
        c.(slice := Links([links[0].(usage := link.usage)] + links[1..], count))
      else Cached(true, Links([link] + links[1..], Decremented(count)), link.link)
  }

  function ClearMyPermanent(c: Cached): Cached {
    if !HasPermanent(c.slice.links) then c
    else Cached(true, Links(c.slice.links[1..], Decremented(c.slice.count)), 0)
  }

  function Replaced(links: seq<Link>, updated: Link): seq<Link> {
    seq(|links|, i requires 0 <= i < |links| => if links[i].link == updated.link then updated else links[i])
  }

  /** applyExternalUpdate. */
  function Updated(c: Cached, updated: Link): Cached {
    c.(slice := c.slice.(links := Replaced(c.slice.links, updated)))
  }

  /** processRequest, when the link that was used is not known. */
  function Pruned(c: Cached): Cached {
    Cached(false, EMPTY, c.stored)
  }

  // ---- The permanent link is in front and agrees with the peer ----

  ghost predicate NoLiveBehind(links: seq<Link>) {
    forall i :: 0 < i < |links| ==> !links[i].Live()
  }

  ghost predicate FrontIsStored(links: seq<Link>, stored: LinkId) {
    HasPermanent(links) ==> stored == links[0].link
  }

  ghost predicate Agrees(c: Cached) {
    NoLiveBehind(c.slice.links) && FrontIsStored(c.slice.links, c.stored) && (!c.known ==> c.slice == EMPTY)
  }

  /** There are at least as many links as are cached. */
  predicate Counted(c: Cached) {
    c.slice.count >= |c.slice.links|
  }

  /** Bringing the permanent link to the front changes the order and nothing else. */
  lemma ToFrontPermutes(links: seq<Link>)
    ensures multiset(PermanentToFront(links)) == multiset(links)
    ensures HasPermanent(PermanentToFront(links))
      <==> exists i :: 0 <= i < |links| && links[i].permanent && !links[i].revoked
  {
    var at := FirstLive(links);
    if at < |links| {
      assert links == links[..at] + [links[at]] + links[at + 1..];
    }
  }

  /** Where a link goes when the one at a place is brought to the front. */
  function PlaceAfter(i: nat, at: nat): nat {
    if i < at then i + 1 else i
  }

  /** The other links keep their order. */
  lemma ToFrontKeepsOrder(links: seq<Link>, i: nat, j: nat)
    requires i < j < |links| && FirstLive(links) < |links| && i != FirstLive(links) && j != FirstLive(links)
    ensures var at, front := FirstLive(links), PermanentToFront(links);
      && PlaceAfter(i, at) < PlaceAfter(j, at) < |front|
      && front[PlaceAfter(i, at)] == links[i] && front[PlaceAfter(j, at)] == links[j]
  {
    RotatedAt(links, FirstLive(links), i);
    RotatedAt(links, FirstLive(links), j);
    hide Rotated, FirstLive;
  }

  lemma RotatedAt(links: seq<Link>, at: nat, i: nat)
    requires at < |links| && i < |links| && i != at
    ensures |Rotated(links, at)| == |links| && Rotated(links, at)[PlaceAfter(i, at)] == links[i]
    ensures Rotated(links, at)[0] == links[at]
  {
  }

  ghost predicate AtMostOneLive(links: seq<Link>) {
    forall i, j :: 0 <= i < j < |links| ==> !links[i].Live() || !links[j].Live()
  }

  lemma TwoLiveLeaveOneBehind(links: seq<Link>, i: nat, j: nat)
    requires i < j < |links| && links[i].Live() && links[j].Live()
    ensures !NoLiveBehind(PermanentToFront(links))
  {
    assert PermanentToFront(links)[j] == links[j];
  }

  /** Nothing live is left behind exactly if there was at most one live permanent link. */
  lemma ToFrontLeavesNoneBehind(links: seq<Link>)
    ensures NoLiveBehind(PermanentToFront(links)) <==> AtMostOneLive(links)
  {
    forall i, j | 0 <= i < j < |links| && links[i].Live() && links[j].Live()
      ensures !NoLiveBehind(PermanentToFront(links))
    {
      TwoLiveLeaveOneBehind(links, i, j);
    }
    var at, front := FirstLive(links), PermanentToFront(links);
    if AtMostOneLive(links) && at < |links| {
      forall i | 0 < i < |front| ensures !front[i].Live() {
        if i > at { assert front[i] == links[i]; } else { assert front[i] == links[i - 1]; }
      }
    }
  }

  lemma {:induction false} WithoutLiveIs(links: seq<Link>, link: Link)
    ensures multiset(WithoutLive(links))[link]
      == if link.permanent && !link.revoked then 0 else multiset(links)[link]
    ensures forall i :: 0 <= i < |WithoutLive(links)| ==> !WithoutLive(links)[i].Live()
  {
    if links != [] {
      WithoutLiveIs(links[1..], link);
      assert links == [links[0]] + links[1..];
    }
  }

  function Times(links: seq<Link>, link: Link): nat {
    multiset(links)[link]
  }

  function When(holds: bool): nat {
    if holds then 1 else 0
  }

  lemma PrependKeeps(c: Cached, link: Link)
    requires Agrees(c)
    ensures Agrees(PrependMy(c, link))
    ensures Counted(c) ==> Counted(PrependMy(c, link))
  {
  }

  /**
   * After a prepend the link is cached once more, and all others as before but for an old
   * permanent link that it replaces.  A permanent link is then in front and stored; another
   * goes behind a permanent one that is there.
   */
  lemma PrependedIsThere(c: Cached, link: Link, other: Link)
    ensures var links, c' := c.slice.links, PrependMy(c, link);
      var had := links != [] && links[0].permanent && !links[0].revoked;
      var takesPlace := had && link.permanent;
      && Times(c'.slice.links, other) + When(takesPlace && other == links[0])
         == Times(links, other) + When(other == link)
      && c'.slice.count == c.slice.count + 1 - When(takesPlace && c.slice.count > 0)
      && c'.known && c'.stored == (if link.permanent then link.link else c.stored)
      && c'.slice.links[if had && !link.permanent then 1 else 0] == link
      && (had && !link.permanent ==> c'.slice.links[0] == links[0])
  {
    hide Times;
    PrependedTimes(c, link, other);
  }

  lemma PrependedTimes(c: Cached, link: Link, other: Link)
    ensures var links, had := c.slice.links, HasPermanent(c.slice.links);
      Times(PrependMy(c, link).slice.links, other) + When(had && link.permanent && other == links[0])
      == Times(links, other) + When(other == link)
  {
    hide Times, Decremented;
    var links, after := c.slice.links, PrependMy(c, link).slice.links;
    if HasPermanent(links) {
      FrontTimes(links[0], links[1..], other);
      assert links == [links[0]] + links[1..];
      if link.permanent {
        FrontTimes(link, links[1..], other);
      } else {
        FrontTimes(link, links[1..], other);
        FrontTimes(links[0], [link] + links[1..], other);
        assert after == [links[0]] + ([link] + links[1..]);
      }
    } else {
      FrontTimes(link, links, other);
    }
  }

  lemma FrontTimes(first: Link, rest: seq<Link>, other: Link)
    ensures Times([first] + rest, other) == When(other == first) + Times(rest, other)
  {
  }

  /** An edit brings back a live link where none may be. */
  predicate EditRevives(c: Cached, key: LinkId, link: Link) {
    var at := FindLink(c.slice.links, key);
    at < |c.slice.links| && link.Live() && !(at == 0 && link.link == c.stored)
  }

  lemma EditKeepsIff(c: Cached, key: LinkId, link: Link)
    requires Agrees(c)
    ensures Agrees(Edited(c, key, link)) <==> !EditRevives(c, key, link)
    ensures Counted(c) ==> Counted(Edited(c, key, link))
  {
    var links, after, at := c.slice.links, Edited(c, key, link).slice.links, FindLink(c.slice.links, key);
    if at < |links| {
      if link.revoked && !links[at].revoked {
        assert forall i :: 0 <= i < |after| ==> after[i] == links[if i < at then i else i + 1];
      } else {
        assert after[at] == link;
      }
    }
  }

  /**
   * An edit changes the first link with the string, if there is one: a link that is revoked
   * now goes and is not counted any more, another takes its place.
   */
  lemma EditedIs(c: Cached, key: LinkId, link: Link, other: Link)
    requires c.known
    ensures var links, at, c' := c.slice.links, FindLink(c.slice.links, key), Edited(c, key, link);
      if at == |links| then c' == c
      else
        var goes := link.revoked && !links[at].revoked;
        && Times(c'.slice.links, other) + When(other == links[at]) == Times(links, other) + When(!goes && other == link)
        && c'.slice.links[..at] == links[..at] && (!goes ==> c'.slice.links[at] == link)
        && c'.slice.count == c.slice.count - When(goes && c.slice.count > 0)
        && c'.stored == c.stored && c'.known
  {
    var at := FindLink(c.slice.links, key);
    if at < |c.slice.links| { ChangedAt(c.slice.links, at, link, other); }
    hide Times, FindLink;
  }

  lemma ChangedAt(links: seq<Link>, at: nat, link: Link, other: Link)
    requires at < |links|
    ensures Times(links[..at] + links[at + 1..], other) + When(other == links[at]) == Times(links, other)
    ensures Times(links[at := link], other) + When(other == links[at]) == Times(links, other) + When(other == link)
  {
    assert links == links[..at] + [links[at]] + links[at + 1..];
    assert links[at := link] == links[..at] + [link] + links[at + 1..];
  }

  /** An edit that keeps the link string and the permanence of a link that was not revoked revives none. */
  lemma HonestEditRevivesNone(c: Cached, key: LinkId, link: Link)
    requires Agrees(c)
    requires var at := FindLink(c.slice.links, key); at < |c.slice.links| ==>
      link.link == key && link.permanent == c.slice.links[at].permanent && (c.slice.links[at].revoked ==> link.revoked)
    ensures !EditRevives(c, key, link)
  {
  }

  /** A new permanent link, which replaces the front one, also sets right what an edit did to the front. */
  lemma ReplacingKeepsIff(c: Cached, key: LinkId, link: Link, next: Link)
    requires Agrees(c)
    ensures Agrees(PrependMy(Edited(c, key, link), next)) <==>
      !EditRevives(c, key, link) || (FindLink(c.slice.links, key) == 0 && next.permanent)
    ensures Counted(c) ==> Counted(PrependMy(Edited(c, key, link), next))
  {
    EditKeepsIff(c, key, link);
    var e := Edited(c, key, link);
    if !EditRevives(c, key, link) {
      PrependKeeps(e, next);
    } else {
      RevivedPrepend(c, key, link, next);
    }
  }

  lemma RevivedPrepend(c: Cached, key: LinkId, link: Link, next: Link)
    requires Agrees(c) && EditRevives(c, key, link)
    ensures Agrees(PrependMy(Edited(c, key, link), next)) <==> FindLink(c.slice.links, key) == 0 && next.permanent
    ensures Counted(c) ==> Counted(PrependMy(Edited(c, key, link), next))
  {
    var e, at := Edited(c, key, link), FindLink(c.slice.links, key);
    var after := PrependMy(e, next).slice.links;
    assert e.slice.links == c.slice.links[at := link];
    if at > 0 {
      assert HasPermanent(e.slice.links) && next.permanent ==> after[at] == link;
      assert !(HasPermanent(e.slice.links) && next.permanent) ==> after[at + 1] == link;
    } else if !next.permanent {
      assert after[0] == link;
    }
  }

  lemma ParseOneIs(c: Cached, invite: Parsed, link: Link)
    ensures multiset(ParseOne(c, invite))[link]
      == if invite == Some(link) && !IsCachedPermanent(c, link.link) then 1 else 0
    ensures |ParseOne(c, invite)| <= 1
  {
  }

  /** The parsed links are those of the page, but for the cached permanent one. */
  lemma {:induction false} ParsedIs(c: Cached, page: seq<Parsed>, link: Link)
    ensures |ParseLinks(c, page)| <= |page|
    ensures multiset(ParseLinks(c, page))[link]
      == if IsCachedPermanent(c, link.link) then 0 else multiset(page)[Some(link)]
  {
    hide ParseOne, IsCachedPermanent;
    if page != [] {
      ParsedIs(c, page[1..], link);
      ParseOneIs(c, page[0], link);
      assert page == [page[0]] + page[1..];
    }
  }

  /** Reloading keeps a cached permanent link; without one, it depends on what the page holds. */
  lemma ReloadKeepsIff(c: Cached, count: int, page: seq<Parsed>)
    requires Agrees(c)
    ensures Agrees(Reloaded(c, count, page)) <==> HasPermanent(c.slice.links) || AtMostOneLive(ParseLinks(c, page))
    ensures Counted(Reloaded(c, count, page)) <==> HasPermanent(c.slice.links) || count >= |ParseLinks(c, page)|
  {
    var parsed := ParseLinks(c, page);
    if HasPermanent(c.slice.links) {
      WithoutLiveIs(parsed, c.slice.links[0]);
      assert forall i :: 0 < i < |Reloaded(c, count, page).slice.links| ==>
        Reloaded(c, count, page).slice.links[i] == WithoutLive(parsed)[i - 1];
    } else {
      ToFrontLeavesNoneBehind(parsed);
    }
  }

  /** Some of the links of the page, in their order. */
  predicate InOrderOf(links: seq<Link>, page: seq<Parsed>) {
    links == [] || (page != [] && (
      (page[0] == Some(links[0]) && InOrderOf(links[1..], page[1..])) || InOrderOf(links, page[1..])))
  }

  lemma {:induction false} EmptyIsInOrder(page: seq<Parsed>)
    ensures InOrderOf([], page)
  {
  }

  lemma {:induction false} DroppedInOrder(links: seq<Link>, page: seq<Parsed>, at: nat)
    requires InOrderOf(links, page) && at < |links|
    ensures InOrderOf(links[..at] + links[at + 1..], page)
    decreases |page|
  {
    var rest := links[..at] + links[at + 1..];
    if InOrderOf(links, page[1..]) {
      DroppedInOrder(links, page[1..], at);
    } else if at == 0 {
      assert rest == links[1..];
    } else {
      DroppedInOrder(links[1..], page[1..], at - 1);
      assert rest[0] == links[0] && rest[1..] == links[1..][..at - 1] + links[1..][at..];
    }
  }

  lemma {:induction false} ParsedInOrder(c: Cached, page: seq<Parsed>)
    ensures InOrderOf(ParseLinks(c, page), page)
  {
    if page != [] {
      ParsedInOrder(c, page[1..]);
      var rest := ParseLinks(c, page[1..]);
      if ParseOne(c, page[0]) != [] {
        assert ([page[0].link] + rest)[1..] == rest;
      } else {
        assert ParseLinks(c, page) == rest;
      }
    }
  }

  lemma {:induction false} WithoutLiveInOrder(links: seq<Link>, page: seq<Parsed>)
    requires InOrderOf(links, page)
    ensures InOrderOf(WithoutLive(links), page)
    decreases |page|
  {
    if links != [] {
      if InOrderOf(links, page[1..]) {
        WithoutLiveInOrder(links, page[1..]);
      } else {
        WithoutLiveInOrder(links[1..], page[1..]);
        var rest := WithoutLive(links[1..]);
        if !links[0].Live() { assert ([links[0]] + rest)[1..] == rest; }
      }
    }
  }

  lemma FrontInOrder(links: seq<Link>, page: seq<Parsed>)
    requires InOrderOf(links, page) && links != []
    ensures InOrderOf(PermanentToFront(links)[1..], page)
  {
    var at := FirstLive(links);
    if 0 < at < |links| {
      DroppedInOrder(links, page, at);
      assert PermanentToFront(links)[1..] == links[..at] + links[at + 1..];
    } else {
      DroppedInOrder(links, page, 0);
      assert PermanentToFront(links)[1..] == links[..0] + links[1..];
    }
  }

  /**
   * With a permanent link cached, a reload leaves this link in front and all links of the
   * page but the permanent ones and those with its string; without one it leaves the whole
   * page.  Behind the front the links keep the order of the page.
   */
  lemma ReloadIs(c: Cached, count: int, page: seq<Parsed>, link: Link)
    ensures var links, c' := c.slice.links, Reloaded(c, count, page);
      if links != [] && links[0].permanent && !links[0].revoked then
        && c'.slice.links != [] && c'.slice.links[0] == links[0] && c'.stored == c.stored && c'.known == c.known
        && Times(c'.slice.links, link)
           == When(link == links[0])
              + (if (link.permanent && !link.revoked) || link.link == links[0].link then 0
                 else multiset(page)[Some(link)])
        && c'.slice.count == (if count > |c'.slice.links| then count else |c'.slice.links|)
      else
        && Times(c'.slice.links, link) == multiset(page)[Some(link)]
        && c'.slice.count == count && c'.known
        && c'.stored == (if HasPermanent(c'.slice.links) then c'.slice.links[0].link else c.stored)
    ensures var after := Reloaded(c, count, page).slice.links;
      after != [] ==> InOrderOf(after[1..], page)
  {
    var parsed := ParseLinks(c, page);
    ParsedIs(c, page, link);
    ParsedInOrder(c, page);
    if HasPermanent(c.slice.links) {
      WithoutLiveIs(parsed, link);
      WithoutLiveInOrder(parsed, page);
      assert ([c.slice.links[0]] + WithoutLive(parsed))[1..] == WithoutLive(parsed);
    } else {
      ToFrontPermutes(parsed);
      if parsed != [] { FrontInOrder(parsed, page); }
      assert |PermanentToFront(parsed)| == |parsed|;
    }
    hide PermanentToFront, WithoutLive, ParseLinks, InOrderOf;
  }

  /**
   * A permanent link that is set is in front and stored, in place of the permanent one that
   * was there; all others stay.  If that had the same string only its usage changes.
   */
  lemma SetPermanentIs(c: Cached, link: Link)
    requires link.permanent
    ensures var links, c' := c.slice.links, SetMyPermanent(c, Some(link));
      var had := links != [] && links[0].permanent && !links[0].revoked;
      var same := had && links[0].link == link.link;
      && c'.slice.links != [] && c'.slice.links[0].link == link.link
      && c'.slice.links[1..] == (if had then links[1..] else links)
      && c'.stored == (if same then c.stored else link.link)
      && (if same then c'.slice.links[0] == links[0].(usage := link.usage) else c'.slice.links[0] == link)
      && c'.slice.count == c.slice.count - When(had && !same && c.slice.count > 0)
      && (same || c'.known)
    ensures SetMyPermanent(c, NoLink) == c && SetMyPermanent(c, Some(link.(permanent := false))) == c
  {
    assert ([link] + c.slice.links)[1..] == c.slice.links;
  }

  lemma SetPermanentKeeps(c: Cached, invite: Parsed)
    requires Agrees(c)
    ensures Agrees(SetMyPermanent(c, invite))
  {
  }

  /** setMyPermanent inserts without counting: the count stays right only if there was room, or the link was cached. */
  lemma SetPermanentCountsIff(c: Cached, invite: Parsed)
    requires Counted(c)
    ensures Counted(SetMyPermanent(c, invite)) <==>
      || invite.NoLink? || !invite.link.permanent
      || c.slice.count > |c.slice.links|
      || (HasPermanent(c.slice.links) && c.slice.links[0].link == invite.link.link)
  {
  }

  /** Clearing the permanent link takes out this one link, and does not count it any more. */
  lemma ClearPermanentIs(c: Cached, other: Link)
    ensures var links, c' := c.slice.links, ClearMyPermanent(c);
      var had := links != [] && links[0].permanent && !links[0].revoked;
      && Times(c'.slice.links, other) + When(had && other == links[0]) == Times(links, other)
      && c'.slice.count == c.slice.count - When(had && c.slice.count > 0)
      && (!had ==> c' == c) && (had ==> c'.stored == 0 && c'.known)
  {
    if c.slice.links != [] {
      assert c.slice.links == [c.slice.links[0]] + c.slice.links[1..];
    }
  }

  /** An update from outside takes the place of each link with its string. */
  lemma UpdatedIs(c: Cached, updated: Link, other: Link)
    ensures var links, c' := c.slice.links, Updated(c, updated);
      && |c'.slice.links| == |links|
      && (forall i :: 0 <= i < |links| && links[i].link != updated.link ==> c'.slice.links[i] == links[i])
      && (forall i :: 0 <= i < |links| && links[i].link == updated.link ==> c'.slice.links[i] == updated)
      && c'.slice.count == c.slice.count && c'.stored == c.stored && c'.known == c.known
  {
  }

  lemma ClearPermanentKeeps(c: Cached)
    requires Agrees(c)
    ensures Agrees(ClearMyPermanent(c)) && !HasPermanent(ClearMyPermanent(c).slice.links)
    ensures HasPermanent(c.slice.links) ==> ClearMyPermanent(c).stored == 0
    ensures Counted(c) ==> Counted(ClearMyPermanent(c))
  {
  }

  /** An update from outside revives a link where no live one may be. */
  ghost predicate UpdateRevives(c: Cached, updated: Link) {
    && updated.Live()
    && exists i ::
      && 0 <= i < |c.slice.links| && c.slice.links[i].link == updated.link
      && !(i == 0 && updated.link == c.stored)
  }

  lemma UpdateKeepsIff(c: Cached, updated: Link)
    requires Agrees(c)
    ensures Agrees(Updated(c, updated)) <==> !UpdateRevives(c, updated)
    ensures Counted(Updated(c, updated)) <==> Counted(c)
  {
    var links, after := c.slice.links, Updated(c, updated).slice.links;
    if UpdateRevives(c, updated) {
      var i :| 0 <= i < |links| && links[i].link == updated.link && !(i == 0 && updated.link == c.stored);
      assert after[i] == updated;
    } else {
      assert forall i :: 0 <= i < |links| ==>
        after[i] == links[i] || (after[i] == updated && links[i].link == updated.link);
    }
  }

  lemma PruneKeeps(c: Cached)
    ensures Agrees(Pruned(c)) && Counted(Pruned(c)) && Pruned(c).stored == c.stored
  {
  }

  // ---- The requests and the answers ----

  /** What a request is for: the keys of the callback maps, and of the requests for first slices. */
  datatype Request =
    | Create(peer: PeerId)
    | Edit(peer: PeerId, link: LinkId)
    | Delete(peer: PeerId, link: LinkId)
    | FirstSlice(peer: PeerId)

  /** A request on the network; `self` says whether it is for links of the user himself. */
  datatype Sent = Sent(request: Request, self: bool)

  /** What an answer holds; an edit's may hold a new link in place of the edited one. */
  datatype Answer =
    | Exported(invite: Parsed)
    | ReplacedBy(invite: Parsed, next: Parsed)
    | Page(count: int, invites: seq<Parsed>)
    | Nothing

  /** How a request ended. */
  datatype Reply = Replied(sent: Sent, answer: Answer) | Refused

  /** A callback that was called, with the link it was given. */
  datatype Call = Call(callback: nat, link: Parsed)

  /**
   * Callbacks are numbered as they are passed in.  `joined` records the request
   * that a callback waits for, or waited for, and `replies` how requests ended.
   */
  datatype State = State(
    firstSlices: map<PeerId, Links>,
    stored: map<PeerId, LinkId>,
    waiting: map<Request, seq<nat>>,
    requestOf: map<Request, nat>,
    nextId: nat,
    inFlight: map<nat, Sent>,
    nextCallback: nat,
    joined: map<nat, nat>,
    replies: map<nat, Reply>,
    called: seq<Call>)

  const INITIAL := State(map[], map[], map[], map[], 1, map[], 0, map[], map[], [])

  function StoredOf(stored: map<PeerId, LinkId>, peer: PeerId): LinkId {
    if peer in stored then stored[peer] else 0
  }

  function CacheOf(s: State, peer: PeerId): Cached {
    Cached(
      peer in s.firstSlices,
      if peer in s.firstSlices then s.firstSlices[peer] else EMPTY,
      StoredOf(s.stored, peer))
  }

  function WithCache(s: State, peer: PeerId, c: Cached): State {
    s.(firstSlices := if c.known then s.firstSlices[peer := c.slice] else s.firstSlices - {peer},
       stored := if c.stored == StoredOf(s.stored, peer) then s.stored else s.stored[peer := c.stored])
  }

  /** The entry of a request, which is sent if it is not there yet. */
  function Entered(s: State, request: Request, self: bool): State {
    if request in s.waiting then s
    else
      s.(waiting := s.waiting[request := []],
         requestOf := s.requestOf[request := s.nextId],
         inFlight := s.inFlight[s.nextId := Sent(request, self)],
         nextId := s.nextId + 1)
  }

  /** A callback that is passed in gets the next number. */
  function Numbered(s: State): State {
    s.(nextCallback := s.nextCallback + 1)
  }

  /** Its callback joins those that wait for the request. */
  function Listing(s: State, request: Request): State
    requires request in s.waiting && request in s.requestOf
  {
    Numbered(s.(waiting := s.waiting[request := s.waiting[request] + [s.nextCallback]],
                joined := s.joined[s.nextCallback := s.requestOf[request]]))
  }

  /** One more call, with a callback or without: it joins the request for the same thing, or sends one. */
  function Join(s: State, request: Request, self: bool, done: bool): State {
    var entered := Entered(s, request, self);
    if done && request in entered.requestOf then Listing(entered, request) else entered
  }

  function TakenOut(s: State, id: nat, reply: Reply): State
    requires id in s.inFlight
  {
    var request := s.inFlight[id].request;
    s.(waiting := s.waiting - {request},
       requestOf := s.requestOf - {request},
       inFlight := s.inFlight - {id},
       replies := s.replies[id := reply])
  }

  function Calls(callbacks: seq<nat>, link: Parsed): seq<Call> {
    seq(|callbacks|, i requires 0 <= i < |callbacks| => Call(callbacks[i], link))
  }

  function Prepended(c: Cached, self: bool, invite: Parsed): Cached {
    if invite.Some? && self then PrependMy(c, invite.link) else c
  }

  function EditAnswered(c: Cached, key: LinkId, self: bool, answer: Answer): Cached {
    match answer
    case Exported(Some(link)) => Edited(c, key, link)
    case ReplacedBy(Some(link), next) => Prepended(Edited(c, key, link), self, next)
    case _ => c
  }

  /** What an answer makes of the cache of its peer. */
  function Answered(c: Cached, sent: Sent, answer: Answer): Cached {
    match (sent.request, answer)
    case (Create(_), Exported(invite)) => Prepended(c, true, invite)
    case (Edit(_, link), _) => EditAnswered(c, link, sent.self, answer)
    case (FirstSlice(_), Page(count, invites)) => Reloaded(c, count, invites)
    case _ => c
  }

  /** The link that an answer to a creation or an edit holds. */
  function LinkIn(reply: Reply): Parsed {
    match reply
    case Replied(Sent(Create(_), _), Exported(invite)) => invite
    case Replied(Sent(Edit(_, _), _), Exported(invite)) => invite
    case Replied(Sent(Edit(_, _), _), ReplacedBy(invite, _)) => invite
    case _ => NoLink
  }

  /**
   * Whether the callbacks of a request are called when it ends so: those of a creation or an
   * edit if there is a link.
   */
  predicate Tells(reply: Reply) {
    reply.Replied? && (reply.sent.request.Delete? || LinkIn(reply).Some?)
  }

  function CallsFor(reply: Reply, callbacks: seq<nat>): seq<Call> {
    if Tells(reply) then Calls(callbacks, LinkIn(reply)) else []
  }

  /**
   * Whether the callbacks of a request are there when its answer is handled: the source
   * dereferences those of an edit.
   */
  predicate HasCallbacks(s: State, id: nat) {
    id in s.inFlight && s.inFlight[id].request in s.waiting
  }

  /** The state after the handler of an answer has taken the entry out and called its callbacks. */
  function Told(s: State, id: nat, reply: Reply): State
    requires HasCallbacks(s, id)
  {
    TakenOut(s, id, reply).(called := s.called + CallsFor(reply, s.waiting[s.inFlight[id].request]))
  }

  function Done(s: State, id: nat, answer: Answer): State
    requires HasCallbacks(s, id)
  {
    var sent := s.inFlight[id];
    var peer := sent.request.peer;
    WithCache(Told(s, id, Replied(sent, answer)), peer, Answered(CacheOf(s, peer), sent, answer))
  }

  datatype Event =
    | DoCreate(peer: PeerId, done: bool)
    | DoEdit(peer: PeerId, link: LinkId, self: bool, done: bool)
    | DoDelete(peer: PeerId, link: LinkId, done: bool)
    | DoReload(peer: PeerId)
    | DoDone(id: nat, answer: Answer)
    | DoFail(id: nat)
    | DoSetPermanent(peer: PeerId, invite: Parsed)
    | DoClearPermanent(peer: PeerId)
    | DoPrune(peer: PeerId)
    | DoUpdate(peer: PeerId, updated: Link)

  function Step(s: State, event: Event): State {
    match event
    case DoCreate(peer, done) => Join(s, Create(peer), true, done)
    case DoEdit(peer, link, self, done) =>
      if Delete(peer, link) !in s.waiting then Join(s, Edit(peer, link), self, done)
      else if done then Numbered(s) else s
    case DoDelete(peer, link, done) => Join(s, Delete(peer, link), true, done)
    case DoReload(peer) => Join(s, FirstSlice(peer), true, false)
    case DoDone(id, answer) => if HasCallbacks(s, id) then Done(s, id, answer) else s
    case DoFail(id) => if id in s.inFlight then TakenOut(s, id, Refused) else s
    case DoSetPermanent(peer, invite) => WithCache(s, peer, SetMyPermanent(CacheOf(s, peer), invite))
    case DoClearPermanent(peer) => WithCache(s, peer, ClearMyPermanent(CacheOf(s, peer)))
    case DoPrune(peer) => WithCache(s, peer, Pruned(CacheOf(s, peer)))
    case DoUpdate(peer, updated) => WithCache(s, peer, Updated(CacheOf(s, peer), updated))
  }

  function Run(events: seq<Event>): State
    decreases |events|
  {
    if events == [] then INITIAL else Step(Run(events[..|events| - 1]), events[|events| - 1])
  }

  // ---- One request for each key ----

  /** The keys with callbacks are exactly the requests on the network, one each. */
  ghost predicate OneRequestEach(s: State) {
    && s.waiting.Keys == s.requestOf.Keys
    && (forall r :: r in s.requestOf ==> s.requestOf[r] in s.inFlight && s.inFlight[s.requestOf[r]].request == r)
    && (forall id :: id in s.inFlight ==>
         id < s.nextId && s.inFlight[id].request in s.requestOf && s.requestOf[s.inFlight[id].request] == id)
  }

  lemma EnteringKeepsRequests(s: State, request: Request, self: bool)
    requires OneRequestEach(s)
    ensures OneRequestEach(Entered(s, request, self))
    ensures request in Entered(s, request, self).waiting && request in Entered(s, request, self).requestOf
  {
  }

  lemma ListingKeepsRequests(s: State, request: Request)
    requires OneRequestEach(s) && request in s.waiting && request in s.requestOf
    ensures OneRequestEach(Listing(s, request))
  {
  }

  lemma JoinKeepsRequests(s: State, request: Request, self: bool, done: bool)
    requires OneRequestEach(s)
    ensures OneRequestEach(Join(s, request, self, done))
  {
    hide OneRequestEach, Entered, Listing;
    EnteringKeepsRequests(s, request, self);
    if done { ListingKeepsRequests(Entered(s, request, self), request); }
  }

  lemma TakingOutKeepsRequests(s: State, id: nat, reply: Reply)
    requires OneRequestEach(s) && id in s.inFlight
    ensures OneRequestEach(TakenOut(s, id, reply))
  {
  }

  /** Only the requests and the callbacks matter. */
  lemma SameRequests(s: State, s': State)
    requires OneRequestEach(s)
    requires s'.waiting == s.waiting && s'.requestOf == s.requestOf
    requires s'.nextId == s.nextId && s'.inFlight == s.inFlight
    ensures OneRequestEach(s')
  {
  }

  lemma StepKeepsRequests(s: State, event: Event)
    requires OneRequestEach(s)
    ensures OneRequestEach(Step(s, event))
  {
    hide OneRequestEach, Join, TakenOut, Answered, CallsFor, CacheOf;
    hide SetMyPermanent, ClearMyPermanent, Pruned, Updated;
    match event
    case DoCreate(peer, done) => JoinKeepsRequests(s, Create(peer), true, done);
    case DoEdit(peer, link, self, done) =>
      JoinKeepsRequests(s, Edit(peer, link), self, done);
      SameRequests(s, Numbered(s));
    case DoDelete(peer, link, done) => JoinKeepsRequests(s, Delete(peer, link), true, done);
    case DoReload(peer) => JoinKeepsRequests(s, FirstSlice(peer), true, false);
    case DoDone(id, answer) =>
      if HasCallbacks(s, id) {
        var reply := Replied(s.inFlight[id], answer);
        TakingOutKeepsRequests(s, id, reply);
        SameRequests(TakenOut(s, id, reply), Told(s, id, reply));
        SameRequests(Told(s, id, reply), Step(s, event));
      }
    case DoFail(id) =>
      if id in s.inFlight { TakingOutKeepsRequests(s, id, Refused); }
    case _ => SameRequests(s, Step(s, event));
  }

  lemma {:induction false} EveryRunKeepsRequests(events: seq<Event>)
    ensures OneRequestEach(Run(events))
    decreases |events|
  {
    hide Step;
    if events != [] {
      EveryRunKeepsRequests(events[..|events| - 1]);
      StepKeepsRequests(Run(events[..|events| - 1]), events[|events| - 1]);
    }
  }

  /** In every run the callbacks of a request are there when it is answered, so the edit's are never missing. */
  lemma AnsweredHaveCallbacks(events: seq<Event>, id: nat)
    requires id in Run(events).inFlight
    ensures HasCallbacks(Run(events), id)
  {
    EveryRunKeepsRequests(events);
    hide Run;
  }

  // ---- Each callback is called once, if its request succeeds with a link ----

  function Listed(callbacks: seq<nat>, callback: nat): nat {
    if callbacks == [] then 0
    else Listed(callbacks[..|callbacks| - 1], callback) + if callbacks[|callbacks| - 1] == callback then 1 else 0
  }

  /** The callbacks that wait for a request are those that joined it, each once. */
  ghost predicate WaitingJoined(waiting: map<Request, seq<nat>>, requestOf: map<Request, nat>, joined: map<nat, nat>) {
    && waiting.Keys == requestOf.Keys
    && (forall r, c: nat :: r in waiting ==>
         Listed(waiting[r], c) == if c in joined && joined[c] == requestOf[r] then 1 else 0)
  }

  /** A callback's request is on the network or has ended, and none is both. */
  ghost predicate JoinedAreKnown(s: State) {
    && (forall c :: c in s.joined ==> c < s.nextCallback && (s.joined[c] in s.inFlight || s.joined[c] in s.replies))
    && (forall id :: id in s.replies ==> id < s.nextId && id !in s.inFlight)
  }

  /** Whether the request of a callback has ended so that the callback is called. */
  predicate IsTold(joined: map<nat, nat>, replies: map<nat, Reply>, callback: nat) {
    callback in joined && joined[callback] in replies && Tells(replies[joined[callback]])
  }

  function TimesCalled(called: seq<Call>, callback: nat): nat {
    if called == [] then 0
    else TimesCalled(called[..|called| - 1], callback) + if called[|called| - 1].callback == callback then 1 else 0
  }

  ghost predicate CalledOnce(joined: map<nat, nat>, replies: map<nat, Reply>, called: seq<Call>) {
    forall c: nat :: TimesCalled(called, c) == if IsTold(joined, replies, c) then 1 else 0
  }

  ghost predicate CalledWithLinks(joined: map<nat, nat>, replies: map<nat, Reply>, called: seq<Call>) {
    forall call :: call in called ==>
      IsTold(joined, replies, call.callback) && call.link == LinkIn(replies[joined[call.callback]])
  }

  ghost predicate CallbacksInv(s: State) {
    && WaitingJoined(s.waiting, s.requestOf, s.joined)
    && JoinedAreKnown(s)
    && CalledOnce(s.joined, s.replies, s.called)
    && CalledWithLinks(s.joined, s.replies, s.called)
  }

  lemma EnteringKeepsCallbacks(s: State, request: Request, self: bool)
    requires OneRequestEach(s) && CallbacksInv(s)
    ensures CallbacksInv(Entered(s, request, self))
  {
    hide CalledOnce, CalledWithLinks, WaitingJoined;
    if request !in s.waiting {
      assert forall c :: c in s.joined ==> s.joined[c] < s.nextId;
      EnteringKeepsWaiting(s.waiting, s.requestOf, s.joined, request, s.nextId);
    }
  }

  lemma EnteringKeepsWaiting(
    waiting: map<Request, seq<nat>>, requestOf: map<Request, nat>, joined: map<nat, nat>, request: Request, id: nat)
    requires WaitingJoined(waiting, requestOf, joined) && request !in waiting
    requires forall c :: c in joined ==> joined[c] != id
    ensures WaitingJoined(waiting[request := []], requestOf[request := id], joined)
  {
    NothingListed();
    hide Listed;
  }

  lemma NothingListed()
    ensures forall c: nat :: Listed([], c) == 0
  {
  }

  lemma ListedAppend(callbacks: seq<nat>, next: nat, c: nat)
    ensures Listed(callbacks + [next], c) == Listed(callbacks, c) + if next == c then 1 else 0
  {
    assert (callbacks + [next])[..|callbacks|] == callbacks;
  }

  ghost predicate IsOnlyOne(requestOf: map<Request, nat>, request: Request) {
    request in requestOf && forall r :: r in requestOf && requestOf[r] == requestOf[request] ==> r == request
  }

  /** A new callback that joins a request: what is listed then. */
  lemma ListingOne(
    waiting: map<Request, seq<nat>>, requestOf: map<Request, nat>, joined: map<nat, nat>,
    request: Request, callback: nat, r: Request, c: nat)
    requires WaitingJoined(waiting, requestOf, joined) && IsOnlyOne(requestOf, request) && callback !in joined
    requires r in waiting
    ensures var joined' := joined[callback := requestOf[request]];
      var listed := if r == request then waiting[request] + [callback] else waiting[r];
      Listed(listed, c) == if c in joined' && joined'[c] == requestOf[r] then 1 else 0
  {
    ListedAppend(waiting[request], callback, c);
    hide Listed;
    assert Listed(waiting[r], c) == if c in joined && joined[c] == requestOf[r] then 1 else 0;
    assert Listed(waiting[request], c) == if c in joined && joined[c] == requestOf[request] then 1 else 0;
  }

  lemma ListingKeepsWaiting(
    waiting: map<Request, seq<nat>>, requestOf: map<Request, nat>, joined: map<nat, nat>,
    request: Request, callback: nat)
    requires WaitingJoined(waiting, requestOf, joined) && IsOnlyOne(requestOf, request) && callback !in joined
    ensures WaitingJoined(
      waiting[request := waiting[request] + [callback]], requestOf, joined[callback := requestOf[request]])
  {
    var waiting' := waiting[request := waiting[request] + [callback]];
    var joined' := joined[callback := requestOf[request]];
    hide Listed;
    forall r, c: nat | r in waiting'
      ensures Listed(waiting'[r], c) == if c in joined' && joined'[c] == requestOf[r] then 1 else 0
    {
      ListingOne(waiting, requestOf, joined, request, callback, r, c);
    }
  }

  lemma RequestIsOnlyOne(s: State, request: Request)
    requires OneRequestEach(s) && request in s.requestOf
    ensures IsOnlyOne(s.requestOf, request) && s.requestOf[request] in s.inFlight
  {
  }

  lemma ListingKeepsKnown(s: State, request: Request)
    requires JoinedAreKnown(s) && request in s.waiting && request in s.requestOf && s.requestOf[request] in s.inFlight
    ensures JoinedAreKnown(Listing(s, request)) && s.nextCallback !in s.joined
  {
  }

  /** A new callback, whose request is still on the network, has not been called. */
  lemma NewIsNotTold(s: State, request: Request)
    requires OneRequestEach(s) && CallbacksInv(s) && request in s.waiting && request in s.requestOf
    ensures var s' := Listing(s, request);
      forall c: nat :: IsTold(s'.joined, s'.replies, c) <==> IsTold(s.joined, s.replies, c)
  {
    hide CalledOnce, CalledWithLinks, WaitingJoined, Tells;
  }

  lemma SameAreCalled(
    joined: map<nat, nat>, joined': map<nat, nat>, replies: map<nat, Reply>, called: seq<Call>)
    requires CalledOnce(joined, replies, called) && CalledWithLinks(joined, replies, called)
    requires forall c: nat :: IsTold(joined', replies, c) <==> IsTold(joined, replies, c)
    requires forall c :: c in joined ==> c in joined' && joined'[c] == joined[c]
    ensures CalledOnce(joined', replies, called) && CalledWithLinks(joined', replies, called)
  {
    hide TimesCalled;
    assert forall c: nat :: IsTold(joined, replies, c) ==> c in joined;
    hide Tells;
  }

  lemma ListingKeepsCallbacks(s: State, request: Request)
    requires OneRequestEach(s) && CallbacksInv(s) && request in s.waiting && request in s.requestOf
    ensures CallbacksInv(Listing(s, request))
  {
    var s' := Listing(s, request);
    RequestIsOnlyOne(s, request);
    NewIsNotTold(s, request);
    hide OneRequestEach, WaitingJoined, JoinedAreKnown, CalledOnce, CalledWithLinks, IsTold, IsOnlyOne;
    ListingKeepsKnown(s, request);
    ListingKeepsWaiting(s.waiting, s.requestOf, s.joined, request, s.nextCallback);
    SameAreCalled(s.joined, s'.joined, s.replies, s.called);
  }

  lemma JoinKeepsCallbacks(s: State, request: Request, self: bool, done: bool)
    requires OneRequestEach(s) && CallbacksInv(s)
    ensures CallbacksInv(Join(s, request, self, done))
  {
    hide OneRequestEach, CallbacksInv, Entered, Listing;
    EnteringKeepsRequests(s, request, self);
    EnteringKeepsCallbacks(s, request, self);
    if done { ListingKeepsCallbacks(Entered(s, request, self), request); }
  }

  lemma {:induction false} CallsCount(called: seq<Call>, callbacks: seq<nat>, link: Parsed, c: nat)
    ensures TimesCalled(called + Calls(callbacks, link), c) == TimesCalled(called, c) + Listed(callbacks, c)
    decreases |callbacks|
  {
    var all := called + Calls(callbacks, link);
    if callbacks == [] {
      assert all == called;
    } else {
      var front := callbacks[..|callbacks| - 1];
      CallsCount(called, front, link, c);
      assert all[..|all| - 1] == called + Calls(front, link);
      assert all[|all| - 1] == Call(callbacks[|callbacks| - 1], link);
    }
  }

  lemma {:induction false} ListedAre(callbacks: seq<nat>, c: nat)
    ensures c in callbacks <==> Listed(callbacks, c) > 0
    decreases |callbacks|
  {
    if callbacks != [] {
      ListedAre(callbacks[..|callbacks| - 1], c);
      assert callbacks == callbacks[..|callbacks| - 1] + [callbacks[|callbacks| - 1]];
    }
  }

  lemma TakingOutKeepsWaiting(s: State, id: nat, reply: Reply)
    requires OneRequestEach(s) && CallbacksInv(s) && HasCallbacks(s, id)
    ensures WaitingJoined(Told(s, id, reply).waiting, Told(s, id, reply).requestOf, s.joined)
    ensures JoinedAreKnown(Told(s, id, reply))
  {
    hide CalledOnce, CalledWithLinks, Listed, CallsFor;
  }

  /** What is told now is what was told before, and to those that wait for the answered request. */
  lemma ToldIs(s: State, id: nat, reply: Reply, c: nat)
    requires OneRequestEach(s) && CallbacksInv(s) && HasCallbacks(s, id)
    ensures IsTold(s.joined, Told(s, id, reply).replies, c)
       <==> IsTold(s.joined, s.replies, c) || (c in s.joined && s.joined[c] == id && Tells(reply))
    ensures Listed(s.waiting[s.inFlight[id].request], c) == if c in s.joined && s.joined[c] == id then 1 else 0
    ensures c in s.joined && s.joined[c] == id ==> !IsTold(s.joined, s.replies, c)
  {
    hide CalledOnce, CalledWithLinks, Listed, CallsFor, Tells;
  }

  lemma AnsweringCalls(s: State, id: nat, reply: Reply)
    requires OneRequestEach(s) && CallbacksInv(s) && HasCallbacks(s, id)
    ensures CalledOnce(s.joined, Told(s, id, reply).replies, Told(s, id, reply).called)
  {
    var callbacks, s' := s.waiting[s.inFlight[id].request], Told(s, id, reply);
    forall c: nat ensures TimesCalled(s'.called, c) == if IsTold(s.joined, s'.replies, c) then 1 else 0 {
      ToldIs(s, id, reply, c);
      CallsCount(s.called, callbacks, LinkIn(reply), c);
      assert TimesCalled(s.called, c) == if IsTold(s.joined, s.replies, c) then 1 else 0;
      hide TimesCalled, Listed, Tells, LinkIn, IsTold, WaitingJoined, CalledWithLinks, OneRequestEach;
      assert s.called + [] == s.called;
    }
  }

  lemma AnsweringCallsWithLinks(s: State, id: nat, reply: Reply)
    requires OneRequestEach(s) && CallbacksInv(s) && HasCallbacks(s, id)
    ensures CalledWithLinks(s.joined, Told(s, id, reply).replies, Told(s, id, reply).called)
  {
    var callbacks, s' := s.waiting[s.inFlight[id].request], Told(s, id, reply);
    hide TimesCalled, Listed, CalledOnce, WaitingJoined, Tells, LinkIn;
    forall call | call in s'.called
      ensures IsTold(s.joined, s'.replies, call.callback)
      ensures call.link == LinkIn(s'.replies[s.joined[call.callback]])
    {
      ToldIs(s, id, reply, call.callback);
      ListedAre(callbacks, call.callback);
    }
  }

  lemma AnsweringKeepsCallbacks(s: State, id: nat, reply: Reply)
    requires OneRequestEach(s) && CallbacksInv(s) && HasCallbacks(s, id)
    ensures CallbacksInv(Told(s, id, reply))
  {
    TakingOutKeepsWaiting(s, id, reply);
    AnsweringCalls(s, id, reply);
    AnsweringCallsWithLinks(s, id, reply);
    hide WaitingJoined, JoinedAreKnown, CalledOnce, CalledWithLinks;
  }

  lemma SameCallbacks(s: State, s': State)
    requires CallbacksInv(s)
    requires s'.waiting == s.waiting && s'.requestOf == s.requestOf && s'.inFlight == s.inFlight
    requires s'.nextId == s.nextId && s'.nextCallback >= s.nextCallback
    requires s'.joined == s.joined && s'.replies == s.replies && s'.called == s.called
    ensures CallbacksInv(s')
  {
    hide WaitingJoined, CalledOnce, CalledWithLinks;
  }

  lemma StepKeepsCallbacks(s: State, event: Event)
    requires OneRequestEach(s) && CallbacksInv(s)
    ensures CallbacksInv(Step(s, event))
  {
    hide CallbacksInv, Join, Told, TakenOut, Answered, CacheOf;
    hide SetMyPermanent, ClearMyPermanent, Pruned, Updated;
    match event
    case DoCreate(peer, done) => hide OneRequestEach; JoinKeepsCallbacks(s, Create(peer), true, done);
    case DoEdit(peer, link, self, done) =>
      hide OneRequestEach;
      JoinKeepsCallbacks(s, Edit(peer, link), self, done);
      SameCallbacks(s, Numbered(s));
    case DoDelete(peer, link, done) => hide OneRequestEach; JoinKeepsCallbacks(s, Delete(peer, link), true, done);
    case DoReload(peer) => hide OneRequestEach; JoinKeepsCallbacks(s, FirstSlice(peer), true, false);
    case DoDone(id, answer) =>
      hide OneRequestEach;
      if HasCallbacks(s, id) {
        var reply := Replied(s.inFlight[id], answer);
        AnsweringKeepsCallbacks(s, id, reply);
        SameCallbacks(Told(s, id, reply), Step(s, event));
      }
    case DoFail(id) =>
      if id in s.inFlight {
        assert HasCallbacks(s, id);
        hide OneRequestEach;
        AnsweringKeepsCallbacks(s, id, Refused);
        FailureCallsNone(s, id);
      }
    case _ => hide OneRequestEach; SameCallbacks(s, Step(s, event));
  }

  lemma FailureCallsNone(s: State, id: nat)
    requires HasCallbacks(s, id)
    ensures Told(s, id, Refused) == TakenOut(s, id, Refused)
  {
    assert s.called + [] == s.called;
  }

  lemma {:induction false} EveryRunKeepsCallbacks(events: seq<Event>)
    ensures CallbacksInv(Run(events))
    decreases |events|
  {
    hide Step, OneRequestEach;
    if events != [] {
      EveryRunKeepsRequests(events[..|events| - 1]);
      EveryRunKeepsCallbacks(events[..|events| - 1]);
      StepKeepsCallbacks(Run(events[..|events| - 1]), events[|events| - 1]);
      hide CallbacksInv;
    }
  }

  /** A creation or an edit that ended with a link, or a deletion that succeeded. */
  predicate Granted(reply: Reply) {
    && reply.Replied?
    && match reply.sent.request
       case Create(_) => reply.answer.Exported? && reply.answer.invite.Some?
       case Edit(_, _) => (reply.answer.Exported? || reply.answer.ReplacedBy?) && reply.answer.invite.Some?
       case Delete(_, _) => true
       case FirstSlice(_) => false
  }

  /**
   * The link that callbacks are given: the one created or edited, not the one that takes its
   * place; none for a deletion.
   */
  predicate GivenBy(reply: Reply, link: Parsed) {
    && reply.Replied?
    && match reply.sent.request
       case Create(_) => reply.answer == Exported(link)
       case Edit(_, _) =>
         reply.answer == Exported(link) || (reply.answer.ReplacedBy? && reply.answer.invite == link)
       case _ => link == NoLink
  }

  /**
   * In every run a callback is called once if the request that it joined has
   * ended with a link, or was a deletion that succeeded, and with that link;
   * else it is never called.
   */
  lemma CalledOnceIfLinked(events: seq<Event>, callback: nat)
    ensures var s := Run(events);
      TimesCalled(s.called, callback)
      == if callback in s.joined && s.joined[callback] in s.replies && Granted(s.replies[s.joined[callback]])
         then 1 else 0
    ensures forall call :: call in Run(events).called && call.callback == callback ==>
      callback in Run(events).joined && Run(events).joined[callback] in Run(events).replies
      && GivenBy(Run(events).replies[Run(events).joined[callback]], call.link)
  {
    EveryRunKeepsCallbacks(events);
    hide Run, TimesCalled, WaitingJoined;
  }

  /** At rest every request that a callback joined has ended. */
  lemma JoinedEnd(events: seq<Event>, callback: nat)
    requires Run(events).inFlight == map[] && callback in Run(events).joined
    ensures Run(events).joined[callback] in Run(events).replies
  {
    EveryRunKeepsCallbacks(events);
    hide Run, CalledOnce, CalledWithLinks, WaitingJoined;
  }

  lemma JoinTakesCallback(s: State, request: Request, self: bool)
    requires OneRequestEach(s)
    ensures var joined := Join(s, request, self, true);
      joined.nextCallback == s.nextCallback + 1 && s.nextCallback in joined.joined
  {
    EnteringKeepsRequests(s, request, self);
    hide OneRequestEach;
  }

  /** A callback that is passed in joins a request, unless the link to be edited is being deleted. */
  lemma CallbackJoins(s: State, event: Event)
    requires OneRequestEach(s) && CallbacksInv(s)
    requires (event.DoCreate? || event.DoEdit? || event.DoDelete?) && event.done
    ensures Step(s, event).nextCallback == s.nextCallback + 1
    ensures s.nextCallback in Step(s, event).joined
       <==> !(event.DoEdit? && Delete(event.peer, event.link) in s.waiting)
  {
    assert s.nextCallback !in s.joined;
    hide OneRequestEach, CallbacksInv, Join;
    match event
    case DoCreate(peer, _) => JoinTakesCallback(s, Create(peer), true);
    case DoEdit(peer, link, self, _) => JoinTakesCallback(s, Edit(peer, link), self);
    case DoDelete(peer, link, _) => JoinTakesCallback(s, Delete(peer, link), true);
    case _ =>
  }

  // ---- The permanent links over whole runs ----

  ghost predicate AllAgree(s: State) {
    forall peer: PeerId :: Agrees(CacheOf(s, peer))
  }

  ghost predicate AllCounted(s: State) {
    forall peer: PeerId :: Counted(CacheOf(s, peer))
  }

  lemma CacheAfter(s: State, peer: PeerId, c: Cached, other: PeerId)
    requires !c.known ==> c.slice == EMPTY
    ensures CacheOf(WithCache(s, peer, c), other) == if other == peer then c else CacheOf(s, other)
  {
  }

  /** When one peer's cache changes, everything hangs on that cache. */
  lemma OneCacheDecides(s: State, peer: PeerId, c: Cached)
    requires !c.known ==> c.slice == EMPTY
    ensures AllAgree(s) ==> (AllAgree(WithCache(s, peer, c)) <==> Agrees(c))
    ensures AllCounted(s) ==> (AllCounted(WithCache(s, peer, c)) <==> Counted(c))
  {
    forall other: PeerId
      ensures CacheOf(WithCache(s, peer, c), other) == if other == peer then c else CacheOf(s, other)
    {
      CacheAfter(s, peer, c, other);
    }
    hide Agrees, Counted, CacheOf, WithCache;
    assert CacheOf(WithCache(s, peer, c), peer) == c;
  }

  function LinksOf(s: State, peer: PeerId): seq<Link> {
    CacheOf(s, peer).slice.links
  }

  lemma AnswerChangesOwnCache(s: State, id: nat, answer: Answer, other: PeerId)
    requires HasCallbacks(s, id)
    ensures var sent := s.inFlight[id]; var peer := sent.request.peer;
      CacheOf(Done(s, id, answer), other)
      == if other == peer then Answered(CacheOf(s, peer), sent, answer) else CacheOf(s, other)
  {
    var sent := s.inFlight[id];
    TellingKeepsCaches(s, id, Replied(sent, answer));
    assert Answered(CacheOf(s, sent.request.peer), sent, answer).known
      || Answered(CacheOf(s, sent.request.peer), sent, answer).slice == EMPTY;
    hide Answered, Told;
    CacheAfter(Told(s, id, Replied(sent, answer)), sent.request.peer,
      Answered(CacheOf(s, sent.request.peer), sent, answer), other);
  }

  /** The link that a creation made is cached once more, and in front and stored if it is permanent. */
  lemma CreatedIsCached(s: State, id: nat, link: Link, other: Link)
    requires HasCallbacks(s, id) && s.inFlight[id].request.Create?
    ensures var peer, s' := s.inFlight[id].request.peer, Done(s, id, Exported(Some(link)));
      var displaces := HasPermanent(LinksOf(s, peer)) && link.permanent;
      && Times(LinksOf(s', peer), other) + When(displaces && other == LinksOf(s, peer)[0])
         == Times(LinksOf(s, peer), other) + When(other == link)
      && (link.permanent ==> LinksOf(s', peer)[0] == link && StoredOf(s'.stored, peer) == link.link)
  {
    AnswerChangesOwnCache(s, id, Exported(Some(link)), s.inFlight[id].request.peer);
    PrependedIsThere(CacheOf(s, s.inFlight[id].request.peer), link, other);
    hide Times, Done, PrependMy;
  }

  /**
   * After an edit the first link with its string is gone if it is revoked now, and else the
   * edited one; a link that takes its place is cached as if it had been created.
   */
  lemma EditedIsCached(s: State, id: nat, link: Link, other: Link)
    requires HasCallbacks(s, id) && s.inFlight[id].request.Edit?
    ensures var sent, s' := s.inFlight[id], Done(s, id, Exported(Some(link)));
      var links, links' := LinksOf(s, sent.request.peer), LinksOf(s', sent.request.peer);
      var at := FindLink(links, sent.request.link);
      if at == |links| then links' == links
      else
        var goes := link.revoked && !links[at].revoked;
        Times(links', other) + When(other == links[at]) == Times(links, other) + When(!goes && other == link)
  {
    hide Times, Done, Edited, FindLink, CacheOf;
    var sent := s.inFlight[id];
    var peer, key := sent.request.peer, sent.request.link;
    AnswerChangesOwnCache(s, id, Exported(Some(link)), peer);
    if CacheOf(s, peer).known {
      EditedIs(CacheOf(s, peer), key, link, other);
    } else {
      NothingToEdit(s, peer, key, link);
    }
  }

  lemma NothingToEdit(s: State, peer: PeerId, key: LinkId, link: Link)
    requires !CacheOf(s, peer).known
    ensures FindLink(LinksOf(s, peer), key) == |LinksOf(s, peer)|
    ensures Edited(CacheOf(s, peer), key, link) == CacheOf(s, peer)
  {
  }

  /** A link that takes the place of an edited one of the user's own is cached as if it had been created. */
  lemma ReplacementIsCached(s: State, id: nat, link: Link, next: Link, other: Link)
    requires HasCallbacks(s, id) && s.inFlight[id].request.Edit?
    ensures var sent, peer := s.inFlight[id], s.inFlight[id].request.peer;
      var e := LinksOf(Done(s, id, Exported(Some(link))), peer);
      var r := LinksOf(Done(s, id, ReplacedBy(Some(link), Some(next))), peer);
      if sent.self then
        Times(r, other) + When(HasPermanent(e) && next.permanent && other == e[0])
        == Times(e, other) + When(other == next)
      else r == e
  {
    hide Times, Done, Edited, PrependMy, CacheOf;
    var sent, peer := s.inFlight[id], s.inFlight[id].request.peer;
    AnswerChangesOwnCache(s, id, Exported(Some(link)), peer);
    AnswerChangesOwnCache(s, id, ReplacedBy(Some(link), Some(next)), peer);
    PrependedIsThere(Edited(CacheOf(s, peer), sent.request.link, link), next, other);
  }

  /** An answered reload leaves what ReloadIs says. */
  lemma ReloadedIsCached(s: State, id: nat, count: int, page: seq<Parsed>, link: Link)
    requires HasCallbacks(s, id) && s.inFlight[id].request.FirstSlice?
    ensures var peer, s' := s.inFlight[id].request.peer, Done(s, id, Page(count, page));
      var links, links' := LinksOf(s, peer), LinksOf(s', peer);
      if HasPermanent(links) then
        && links' != [] && links'[0] == links[0]
        && Times(links', link)
           == When(link == links[0])
              + (if link.Live() || link.link == links[0].link then 0 else multiset(page)[Some(link)])
      else Times(links', link) == multiset(page)[Some(link)]
    ensures var links' := LinksOf(Done(s, id, Page(count, page)), s.inFlight[id].request.peer);
      links' != [] ==> InOrderOf(links'[1..], page)
  {
    var peer := s.inFlight[id].request.peer;
    AnswerChangesOwnCache(s, id, Page(count, page), peer);
    ReloadIs(CacheOf(s, peer), count, page, link);
    hide Times, Done, Reloaded, InOrderOf;
  }

  predicate EventTouches(s: State, event: Event, peer: PeerId) {
    match event
    case DoDone(id, answer) =>
      HasCallbacks(s, id) && s.inFlight[id].request.peer == peer && !s.inFlight[id].request.Delete?
    case DoSetPermanent(p, _) => p == peer
    case DoClearPermanent(p) => p == peer
    case DoPrune(p) => p == peer
    case DoUpdate(p, _) => p == peer
    case _ => false
  }

  /** Only an answer for a peer, or an operation on it, changes what is cached of the peer. */
  lemma OthersAreNotTouched(s: State, event: Event, peer: PeerId)
    requires !EventTouches(s, event, peer)
    ensures CacheOf(Step(s, event), peer) == CacheOf(s, peer)
  {
    hide Done, Join, SetMyPermanent, ClearMyPermanent, Updated, Answered;
    match event
    case DoDone(id, answer) =>
      if HasCallbacks(s, id) {
        AnswerChangesOwnCache(s, id, answer, peer);
        if s.inFlight[id].request.Delete? { DeletionChangesNothing(s, id, answer); }
      }
    case DoSetPermanent(p, invite) =>
    case DoClearPermanent(p) =>
    case DoPrune(p) =>
    case DoUpdate(p, updated) =>
    case _ => OtherEventsKeepCaches(s, event);
  }

  lemma DeletionChangesNothing(s: State, id: nat, answer: Answer)
    requires HasCallbacks(s, id) && s.inFlight[id].request.Delete?
    ensures Answered(CacheOf(s, s.inFlight[id].request.peer), s.inFlight[id], answer)
         == CacheOf(s, s.inFlight[id].request.peer)
  {
  }

  /** What a call asks for, unless the link to be edited is being deleted. */
  function AskedBy(s: State, event: Event): set<Request> {
    match event
    case DoCreate(peer, _) => {Create(peer)}
    case DoEdit(peer, link, _, _) => if Delete(peer, link) in s.waiting then {} else {Edit(peer, link)}
    case DoDelete(peer, link, _) => {Delete(peer, link)}
    case DoReload(peer) => {FirstSlice(peer)}
    case _ => {}
  }

  ghost predicate OnNetwork(s: State, request: Request) {
    exists id :: id in s.inFlight && s.inFlight[id].request == request
  }

  /** Nothing new is on the network, or one request that was not there. */
  ghost predicate SendsOnce(s: State, s': State, request: Request) {
    if OnNetwork(s, request) then s'.inFlight == s.inFlight
    else exists id: nat, self :: id !in s.inFlight && s'.inFlight == s.inFlight[id := Sent(request, self)]
  }

  /** In every run what a call asks for is then on the network: as it was, or by one new request. */
  lemma AskedIsOnNetwork(events: seq<Event>, event: Event, request: Request)
    requires request in AskedBy(Run(events), event)
    ensures var s, s' := Run(events), Step(Run(events), event);
      OnNetwork(s', request) && SendsOnce(s, s', request)
  {
    EveryRunKeepsRequests(events);
    var s := Run(events);
    hide Run, OneRequestEach, Join, OnNetwork, SendsOnce;
    match event
    case DoCreate(peer, done) => JoinIsOnNetwork(s, Create(peer), true, done);
    case DoEdit(peer, link, self, done) => JoinIsOnNetwork(s, Edit(peer, link), self, done);
    case DoDelete(peer, link, done) => JoinIsOnNetwork(s, Delete(peer, link), true, done);
    case DoReload(peer) => JoinIsOnNetwork(s, FirstSlice(peer), true, false);
    case _ =>
  }

  lemma JoinIsOnNetwork(s: State, request: Request, self: bool, done: bool)
    requires OneRequestEach(s)
    ensures OnNetwork(Join(s, request, self, done), request) && SendsOnce(s, Join(s, request, self, done), request)
  {
    var s' := Join(s, request, self, done);
    if request in s.waiting {
      assert s'.inFlight == s.inFlight && s'.inFlight[s.requestOf[request]].request == request;
    } else {
      assert s'.inFlight == s.inFlight[s.nextId := Sent(request, self)] && s.nextId !in s.inFlight;
      assert s'.inFlight[s.nextId].request == request;
    }
  }

  /** What an answer must be like for the permanent link to stay in its place. */
  ghost predicate AnswerIsSound(c: Cached, sent: Sent, answer: Answer) {
    match (sent.request, answer)
    case (Edit(_, key), Exported(Some(link))) => !EditRevives(c, key, link)
    case (Edit(_, key), ReplacedBy(Some(link), next)) =>
      !EditRevives(c, key, link)
      || (sent.self && next.Some? && next.link.permanent && FindLink(c.slice.links, key) == 0)
    case (FirstSlice(_), Page(_, invites)) => HasPermanent(c.slice.links) || AtMostOneLive(ParseLinks(c, invites))
    case _ => true
  }

  lemma AnswerKeepsIff(c: Cached, sent: Sent, answer: Answer)
    requires Agrees(c)
    ensures Agrees(Answered(c, sent, answer)) <==> AnswerIsSound(c, sent, answer)
    ensures !Answered(c, sent, answer).known ==> Answered(c, sent, answer).slice == EMPTY
  {
    hide Edited, PrependMy, Reloaded, EditRevives;
    match (sent.request, answer)
    case (Create(_), Exported(Some(link))) =>
      PrependKeeps(c, link);
      PrependIsKnown(c, link);
    case (Edit(_, key), Exported(Some(link))) =>
      EditKeepsIff(c, key, link);
      EditIsKnown(c, key, link);
    case (Edit(_, key), ReplacedBy(Some(link), next)) =>
      EditKeepsIff(c, key, link);
      EditIsKnown(c, key, link);
      if next.Some? && sent.self {
        ReplacingKeepsIff(c, key, link, next.link);
        PrependIsKnown(Edited(c, key, link), next.link);
      }
    case (FirstSlice(_), Page(count, invites)) =>
      ReloadKeepsIff(c, count, invites);
      ReloadIsKnown(c, count, invites);
    case _ =>
  }

  lemma PrependIsKnown(c: Cached, link: Link)
    ensures PrependMy(c, link).known
  {
  }

  lemma EditIsKnown(c: Cached, key: LinkId, link: Link)
    requires Agrees(c)
    ensures !Edited(c, key, link).known ==> Edited(c, key, link).slice == EMPTY
  {
  }

  lemma ReloadIsKnown(c: Cached, count: int, page: seq<Parsed>)
    requires Agrees(c)
    ensures Reloaded(c, count, page).known
  {
  }

  /** What an event must be like for the permanent links to stay in their places. */
  ghost predicate Sound(s: State, event: Event) {
    match event
    case DoDone(id, answer) =>
      HasCallbacks(s, id) ==> AnswerIsSound(CacheOf(s, s.inFlight[id].request.peer), s.inFlight[id], answer)
    case DoUpdate(peer, updated) => !UpdateRevives(CacheOf(s, peer), updated)
    case _ => true
  }

  lemma SameCachesAgree(s: State, s': State)
    requires s'.firstSlices == s.firstSlices && s'.stored == s.stored
    ensures AllAgree(s) <==> AllAgree(s')
    ensures AllCounted(s) <==> AllCounted(s')
  {
    assert forall peer: PeerId :: CacheOf(s, peer) == CacheOf(s', peer);
    hide Agrees, Counted, CacheOf;
  }

  lemma JoinKeepsCaches(s: State, request: Request, self: bool, done: bool)
    ensures Join(s, request, self, done).firstSlices == s.firstSlices
    ensures Join(s, request, self, done).stored == s.stored
  {
  }

  lemma TellingKeepsCaches(s: State, id: nat, reply: Reply)
    requires HasCallbacks(s, id)
    ensures Told(s, id, reply).firstSlices == s.firstSlices && Told(s, id, reply).stored == s.stored
  {
  }

  /** The events that do not touch a cache. */
  lemma OtherEventsKeepCaches(s: State, event: Event)
    requires event.DoCreate? || event.DoEdit? || event.DoDelete? || event.DoReload? || event.DoFail?
    ensures Step(s, event).firstSlices == s.firstSlices && Step(s, event).stored == s.stored
  {
    hide Join;
    match event
    case DoCreate(peer, done) => JoinKeepsCaches(s, Create(peer), true, done);
    case DoEdit(peer, link, self, done) => JoinKeepsCaches(s, Edit(peer, link), self, done);
    case DoDelete(peer, link, done) => JoinKeepsCaches(s, Delete(peer, link), true, done);
    case DoReload(peer) => JoinKeepsCaches(s, FirstSlice(peer), true, false);
    case _ =>
  }

  /** A step keeps every permanent link in its place exactly if it is sound. */
  lemma StepAgreesIff(s: State, event: Event)
    requires AllAgree(s)
    ensures AllAgree(Step(s, event)) <==> Sound(s, event)
  {
    hide Agrees, CacheOf, WithCache, Answered, AnswerIsSound, Join, Told, TakenOut;
    hide SetMyPermanent, ClearMyPermanent, Updated, UpdateRevives;
    match event
    case DoDone(id, answer) =>
      if HasCallbacks(s, id) {
        var sent := s.inFlight[id];
        var c, told := CacheOf(s, sent.request.peer), Told(s, id, Replied(sent, answer));
        TellingKeepsCaches(s, id, Replied(sent, answer));
        SameCachesAgree(s, told);
        AnswerKeepsIff(c, sent, answer);
        OneCacheDecides(told, sent.request.peer, Answered(c, sent, answer));
      }
    case DoSetPermanent(peer, invite) =>
      SetPermanentKeeps(CacheOf(s, peer), invite);
      AgreeingIsKnown(SetMyPermanent(CacheOf(s, peer), invite));
      OneCacheDecides(s, peer, SetMyPermanent(CacheOf(s, peer), invite));
    case DoClearPermanent(peer) =>
      ClearPermanentKeeps(CacheOf(s, peer));
      AgreeingIsKnown(ClearMyPermanent(CacheOf(s, peer)));
      OneCacheDecides(s, peer, ClearMyPermanent(CacheOf(s, peer)));
    case DoPrune(peer) =>
      PruneKeeps(CacheOf(s, peer));
      OneCacheDecides(s, peer, Pruned(CacheOf(s, peer)));
    case DoUpdate(peer, updated) =>
      UpdateKeepsIff(CacheOf(s, peer), updated);
      UpdateIsKnown(CacheOf(s, peer), updated);
      OneCacheDecides(s, peer, Updated(CacheOf(s, peer), updated));
    case _ =>
      OtherEventsKeepCaches(s, event);
      SameCachesAgree(s, Step(s, event));
  }

  lemma AgreeingIsKnown(c: Cached)
    requires Agrees(c)
    ensures !c.known ==> c.slice == EMPTY
  {
  }

  lemma UpdateIsKnown(c: Cached, updated: Link)
    requires Agrees(c)
    ensures !Updated(c, updated).known ==> Updated(c, updated).slice == EMPTY
  {
  }

  ghost predicate SoundRun(events: seq<Event>)
    decreases |events|
  {
    events != [] ==> SoundRun(events[..|events| - 1]) && Sound(Run(events[..|events| - 1]), events[|events| - 1])
  }

  /** In every run of sound events, the permanent link of every peer is in front and is the one stored on the peer. */
  lemma {:induction false} EveryRunAgrees(events: seq<Event>)
    requires SoundRun(events)
    ensures AllAgree(Run(events))
    decreases |events|
  {
    hide Step, Sound;
    if events == [] {
      assert forall peer: PeerId :: CacheOf(INITIAL, peer) == UNKNOWN;
    } else {
      hide Agrees;
      EveryRunAgrees(events[..|events| - 1]);
      StepAgreesIff(Run(events[..|events| - 1]), events[|events| - 1]);
    }
  }

  // ---- The counts ----

  /** What an event must be like for the counts to stay at least the numbers of cached links. */
  ghost predicate CountsRight(s: State, event: Event) {
    match event
    case DoDone(id, Page(count, invites)) =>
      HasCallbacks(s, id) && s.inFlight[id].request.FirstSlice? ==>
        var c := CacheOf(s, s.inFlight[id].request.peer);
        HasPermanent(c.slice.links) || count >= |ParseLinks(c, invites)|
    case DoSetPermanent(peer, invite) =>
      var c := CacheOf(s, peer);
      || invite.NoLink? || !invite.link.permanent
      || c.slice.count > |c.slice.links|
      || (HasPermanent(c.slice.links) && c.slice.links[0].link == invite.link.link)
    case _ => true
  }

  lemma AnswerCountsIff(c: Cached, sent: Sent, answer: Answer)
    requires Agrees(c) && Counted(c)
    ensures Counted(Answered(c, sent, answer)) <==>
      (sent.request.FirstSlice? && answer.Page? ==>
        HasPermanent(c.slice.links) || answer.count >= |ParseLinks(c, answer.invites)|)
  {
    hide Edited, PrependMy, Reloaded, EditRevives, Agrees, Counted;
    match (sent.request, answer)
    case (Create(_), Exported(Some(link))) => PrependKeeps(c, link);
    case (Edit(_, key), Exported(Some(link))) => EditKeepsIff(c, key, link);
    case (Edit(_, key), ReplacedBy(Some(link), next)) =>
      EditKeepsIff(c, key, link);
      if next.Some? && sent.self { ReplacingKeepsIff(c, key, link, next.link); }
    case (FirstSlice(_), Page(count, invites)) => ReloadKeepsIff(c, count, invites);
    case _ =>
  }

  /** A step keeps every count at least the number of cached links exactly if it counts right. */
  lemma StepCountsIff(s: State, event: Event)
    requires AllAgree(s) && AllCounted(s)
    ensures AllCounted(Step(s, event)) <==> CountsRight(s, event)
  {
    hide Agrees, Counted, CacheOf, WithCache, Answered, AnswerIsSound, Join, Told, TakenOut;
    hide SetMyPermanent, ClearMyPermanent, Updated, UpdateRevives, ParseLinks;
    match event
    case DoDone(id, answer) =>
      if HasCallbacks(s, id) {
        var sent := s.inFlight[id];
        var c, told := CacheOf(s, sent.request.peer), Told(s, id, Replied(sent, answer));
        TellingKeepsCaches(s, id, Replied(sent, answer));
        SameCachesAgree(s, told);
        AnswerKeepsIff(c, sent, answer);
        AnswerCountsIff(c, sent, answer);
        OneCacheDecides(told, sent.request.peer, Answered(c, sent, answer));
      }
    case DoSetPermanent(peer, invite) =>
      SetPermanentKeeps(CacheOf(s, peer), invite);
      SetPermanentCountsIff(CacheOf(s, peer), invite);
      AgreeingIsKnown(SetMyPermanent(CacheOf(s, peer), invite));
      OneCacheDecides(s, peer, SetMyPermanent(CacheOf(s, peer), invite));
    case DoClearPermanent(peer) =>
      ClearPermanentKeeps(CacheOf(s, peer));
      AgreeingIsKnown(ClearMyPermanent(CacheOf(s, peer)));
      OneCacheDecides(s, peer, ClearMyPermanent(CacheOf(s, peer)));
    case DoPrune(peer) =>
      PruneKeeps(CacheOf(s, peer));
      OneCacheDecides(s, peer, Pruned(CacheOf(s, peer)));
    case DoUpdate(peer, updated) =>
      UpdateKeepsIff(CacheOf(s, peer), updated);
      UpdateIsKnown(CacheOf(s, peer), updated);
      OneCacheDecides(s, peer, Updated(CacheOf(s, peer), updated));
    case _ =>
      OtherEventsKeepCaches(s, event);
      SameCachesAgree(s, Step(s, event));
  }

  ghost predicate RightRun(events: seq<Event>)
    decreases |events|
  {
    events != [] ==>
      var before, event := Run(events[..|events| - 1]), events[|events| - 1];
      RightRun(events[..|events| - 1]) && Sound(before, event) && CountsRight(before, event)
  }

  /** In every run of such events both hold for every peer. */
  lemma {:induction false} EveryRunCounts(events: seq<Event>)
    requires RightRun(events)
    ensures AllAgree(Run(events)) && AllCounted(Run(events))
    decreases |events|
  {
    hide Step, Sound, CountsRight;
    if events == [] {
      assert forall peer: PeerId :: CacheOf(INITIAL, peer) == UNKNOWN;
    } else {
      hide Agrees, Counted;
      EveryRunCounts(events[..|events| - 1]);
      StepAgreesIff(Run(events[..|events| - 1]), events[|events| - 1]);
      StepCountsIff(Run(events[..|events| - 1]), events[|events| - 1]);
    }
  }

  /** A page with two live permanent links, asked for when none was cached. */
  const TWO_PERMANENT := [
    DoReload(1),
    DoDone(1, Page(2, [Some(Link(5, true, false, 0, 0)), Some(Link(6, true, false, 0, 0))]))]

  /** It leaves one of them behind the other. */
  lemma TwoPermanentDisagree()
    ensures var c := CacheOf(Run(TWO_PERMANENT), 1);
      !Agrees(c) && c.slice.links == [Link(5, true, false, 0, 0), Link(6, true, false, 0, 0)] && c.stored == 5
  {
    TwoPermanentIsAsked();
    var events, s := TWO_PERMANENT, Run(TWO_PERMANENT[..1]);
    var answer := events[1].answer;
    assert events[..1] == TWO_PERMANENT[..1] && Run(events) == Step(s, events[1]);
    hide Run;
    TwoPermanentParse(CacheOf(s, 1));
    TellingKeepsCaches(s, 1, Replied(s.inFlight[1], answer));
    CacheAfter(Told(s, 1, Replied(s.inFlight[1], answer)), 1, Reloaded(CacheOf(s, 1), 2, answer.invites), 1);
    hide Told, WithCache, CacheOf, Reloaded;
    var links := CacheOf(Run(events), 1).slice.links;
    assert links == [Link(5, true, false, 0, 0), Link(6, true, false, 0, 0)];
    assert links[1].Live();
  }

  lemma TwoPermanentIsAsked()
    ensures var s := Run(TWO_PERMANENT[..1]);
      && s.inFlight == map[1 := Sent(FirstSlice(1), true)] && s.waiting == map[FirstSlice(1) := []]
      && CacheOf(s, 1) == UNKNOWN
  {
    var events := TWO_PERMANENT[..1];
    assert events[..0] == [] && events[0] == DoReload(1);
    assert Run(events) == Step(INITIAL, DoReload(1));
  }

  lemma TwoPermanentParse(c: Cached)
    requires c == UNKNOWN
    ensures var first, second := Link(5, true, false, 0, 0), Link(6, true, false, 0, 0);
      Reloaded(c, 2, [Some(first), Some(second)]) == Cached(true, Links([first, second], 2), 5)
  {
    var first, second := Link(5, true, false, 0, 0), Link(6, true, false, 0, 0);
    var page := [Some(first), Some(second)];
    assert page[1..] == [Some(second)] && page[1..][1..] == [];
    assert ParseLinks(c, page[1..]) == [second];
    assert ParseLinks(c, page) == [first, second];
  }

  /** Setting a first permanent link leaves one link cached and none counted. */
  lemma FirstPermanentIsNotCounted(link: Link)
    requires link.Live()
    ensures var c := CacheOf(Run([DoSetPermanent(1, Some(link))]), 1);
      Agrees(c) && !Counted(c) && |c.slice.links| == 1 && c.slice.count == 0
  {
    var events := [DoSetPermanent(1, Some(link))];
    assert events[..0] == [];
    assert Run(events) == Step(INITIAL, events[0]);
  }

  // ---- The object that the source updates in place ----

  method BringPermanentToFront(links: seq<Link>) returns (list: seq<Link>)
    ensures list == PermanentToFront(links)
  {
    list := links;
    var i := 0;
    while i < |list| && !list[i].Live()
      invariant i <= |list|
      invariant FirstLive(list) == i + FirstLive(list[i..])
    {
      assert list[i..][1..] == list[i + 1..];
      i := i + 1;
    }
    if i != |list| && i != 0 {
      list := [list[i]] + list[..i] + list[i + 1..];
    }
  }

  method RemovePermanent(links: seq<Link>) returns (list: seq<Link>)
    ensures list == WithoutLive(links)
  {
    list := [];
    for i := 0 to |links|
      invariant WithoutLive(links) == list + WithoutLive(links[i..])
    {
      assert links[i..][1..] == links[i + 1..];
      if !links[i].Live() {
        list := list + [links[i]];
      }
    }
  }

  method FindByLink(links: seq<Link>, link: LinkId) returns (at: nat)
    ensures at == FindLink(links, link)
  {
    at := 0;
    while at < |links| && links[at].link != link
      invariant at <= |links|
      invariant FindLink(links, link) == at + FindLink(links[at..], link)
    {
      assert links[at..][1..] == links[at + 1..];
      at := at + 1;
    }
  }

  lemma CacheIsThere(s: State, peer: PeerId)
    ensures WithCache(s, peer, CacheOf(s, peer)) == s
  {
  }

  lemma CacheAfterEdit(s: State, peer: PeerId, key: LinkId, link: Link)
    ensures var e := Edited(CacheOf(s, peer), key, link);
      CacheOf(WithCache(s, peer, e), peer) == e && e.stored == StoredOf(s.stored, peer)
  {
  }

  lemma CacheAfterCalls(s: State, peer: PeerId, c: Cached, called: seq<Call>)
    ensures WithCache(s, peer, c).(called := called) == WithCache(s.(called := called), peer, c)
    ensures CacheOf(s.(called := called), peer) == CacheOf(s, peer)
  {
  }

  lemma WithCacheTwice(s: State, peer: PeerId, first: Cached, second: Cached)
    requires first.stored == StoredOf(s.stored, peer)
    ensures WithCache(WithCache(s, peer, first), peer, second) == WithCache(s, peer, second)
  {
  }

  class LinksCache {
    var firstSlices: map<PeerId, Links>
    var stored: map<PeerId, LinkId>
    var waiting: map<Request, seq<nat>>
    ghost var requestOf: map<Request, nat>
    var nextId: nat
    var inFlight: map<nat, Sent>
    var nextCallback: nat
    ghost var joined: map<nat, nat>
    ghost var replies: map<nat, Reply>
    var called: seq<Call>

    ghost function Abs(): State
      reads this
    {
      State(firstSlices, stored, waiting, requestOf, nextId, inFlight, nextCallback, joined, replies, called)
    }

    ghost function CachedOf(peer: PeerId): Cached
      reads this
    {
      CacheOf(Abs(), peer)
    }

    constructor ()
      ensures Abs() == INITIAL
    {
      firstSlices, stored, waiting, requestOf := map[], map[], map[], map[];
      nextId, inFlight, nextCallback, joined, replies, called := 1, map[], 0, map[], map[], [];
    }

    method EditPermanentLink(peer: PeerId, link: LinkId)
      modifies `stored
      ensures stored == if link == StoredOf(old(stored), peer) then old(stored) else old(stored)[peer := link]
    {
      if StoredOf(stored, peer) != link {
        stored := stored[peer := link];
      }
    }

    method PrependMyToFirstSlice(peer: PeerId, link: Link)
      modifies `firstSlices, `stored
      ensures Abs() == WithCache(old(Abs()), peer, PrependMy(old(CachedOf(peer)), link))
    {
      var slice := if peer in firstSlices then firstSlices[peer] else EMPTY;
      var links, count := slice.links, slice.count;
      var hadPermanent := HasPermanent(links);
      if link.permanent && hadPermanent {
        links := links[1..];
        if count > 0 {
          count := count - 1;
        }
      }
      count := count + 1;
      if hadPermanent && !link.permanent {
        links := links[..1] + [link] + links[1..];
        assert links == [slice.links[0], link] + slice.links[1..];
      } else {
        links := [link] + links;
      }
      firstSlices := firstSlices[peer := Links(links, count)];
      if link.permanent {
        EditPermanentLink(peer, link.link);
      }
    }

    /** The entry of a request, which is sent if it is not there yet. */
    method SendOnce(request: Request, self: bool)
      modifies `waiting, `requestOf, `inFlight, `nextId
      ensures Abs() == Entered(old(Abs()), request, self)
    {
      if request !in waiting {
        waiting, requestOf := waiting[request := []], requestOf[request := nextId];
        inFlight := inFlight[nextId := Sent(request, self)];
        nextId := nextId + 1;
      }
    }

    method PushCallback(request: Request)
      requires request in waiting && request in requestOf
      modifies `waiting, `nextCallback, `joined
      ensures Abs() == Listing(old(Abs()), request)
    {
      waiting := waiting[request := waiting[request] + [nextCallback]];
      joined := joined[nextCallback := requestOf[request]];
      nextCallback := nextCallback + 1;
    }

    /** A call with a callback or without, which joins the request for the same thing or sends one. */
    method SendOrJoin(request: Request, self: bool, done: bool)
      requires OneRequestEach(Abs())
      modifies `waiting, `requestOf, `inFlight, `nextId, `nextCallback, `joined
      ensures Abs() == Join(old(Abs()), request, self, done)
    {
      hide OneRequestEach, Entered, Listing;
      EnteringKeepsRequests(Abs(), request, self);
      SendOnce(request, self);
      if done {
        PushCallback(request);
      }
    }

    method PerformEdit(peer: PeerId, link: LinkId, self: bool, done: bool)
      requires OneRequestEach(Abs())
      modifies `waiting, `requestOf, `inFlight, `nextId, `nextCallback, `joined
      ensures Abs() == Step(old(Abs()), DoEdit(peer, link, self, done))
    {
      if Delete(peer, link) in waiting {
        if done {
          nextCallback := nextCallback + 1;
        }
        return;
      }
      hide Join;
      SendOrJoin(Edit(peer, link), self, done);
    }

    method TakeOut(id: nat, ghost reply: Reply) returns (callbacks: seq<nat>)
      requires HasCallbacks(Abs(), id)
      modifies `waiting, `requestOf, `inFlight, `replies
      ensures Abs() == TakenOut(old(Abs()), id, reply) && callbacks == old(waiting)[old(inFlight)[id].request]
    {
      var request := inFlight[id].request;
      callbacks := waiting[request];
      waiting, requestOf, inFlight := waiting - {request}, requestOf - {request}, inFlight - {id};
      replies := replies[id := reply];
    }

    method CallAll(callbacks: seq<nat>, link: Parsed)
      modifies `called
      ensures called == old(called) + Calls(callbacks, link)
    {
      for i := 0 to |callbacks|
        invariant called == old(called) + Calls(callbacks[..i], link)
      {
        assert Calls(callbacks[..i + 1], link) == Calls(callbacks[..i], link) + [Call(callbacks[i], link)];
        called := called + [Call(callbacks[i], link)];
      }
      assert callbacks[..|callbacks|] == callbacks;
    }

    /** The done handler of performCreate. */
    method CreateDone(id: nat, invite: Parsed)
      requires HasCallbacks(Abs(), id) && inFlight[id].request.Create?
      modifies `waiting, `requestOf, `inFlight, `replies, `called, `firstSlices, `stored
      ensures Abs() == Done(old(Abs()), id, Exported(invite))
    {
      hide PrependMy, WithCache;
      var peer := inFlight[id].request.peer;
      var callbacks := TakeOut(id, Replied(inFlight[id], Exported(invite)));
      ghost var rest, c := Abs(), CachedOf(peer);
      if invite.NoLink? {
        CacheIsThere(rest, peer);
        assert called == called + [];
        return;
      }
      PrependMyToFirstSlice(peer, invite.link);
      CallAll(callbacks, invite);
      CacheAfterCalls(rest, peer, PrependMy(c, invite.link), called);
    }

    /** The done handler of destroy. */
    method DeleteDone(id: nat)
      requires HasCallbacks(Abs(), id) && inFlight[id].request.Delete?
      modifies `waiting, `requestOf, `inFlight, `replies, `called
      ensures Abs() == Done(old(Abs()), id, Nothing)
    {
      hide WithCache;
      var peer := inFlight[id].request.peer;
      var callbacks := TakeOut(id, Replied(inFlight[id], Nothing));
      CallAll(callbacks, NoLink);
      CacheIsThere(Abs(), peer);
    }

    /** The fail handlers: the callbacks go without being called. */
    method Failed(id: nat)
      requires HasCallbacks(Abs(), id)
      modifies `waiting, `requestOf, `inFlight, `replies
      ensures Abs() == Step(old(Abs()), DoFail(id))
    {
      var _ := TakeOut(id, Refused);
    }

    /** What the done handler of performEdit does to the cached slice. */
    method ReplaceEdited(peer: PeerId, key: LinkId, link: Link)
      modifies `firstSlices
      ensures Abs() == WithCache(old(Abs()), peer, Edited(old(CachedOf(peer)), key, link))
    {
      if peer in firstSlices {
        var links, count := firstSlices[peer].links, firstSlices[peer].count;
        var j := FindByLink(links, key);
        if j != |links| {
          if link.revoked && !links[j].revoked {
            links := links[..j] + links[j + 1..];
            if count > 0 {
              count := count - 1;
            }
          } else {
            links := links[j := link];
          }
          firstSlices := firstSlices[peer := Links(links, count)];
        }
      }
    }

    /** The done handler of performEdit. */
    method EditDone(id: nat, answer: Answer)
      requires HasCallbacks(Abs(), id) && inFlight[id].request.Edit? && (answer.Exported? || answer.ReplacedBy?)
      modifies `waiting, `requestOf, `inFlight, `replies, `called, `firstSlices, `stored
      ensures Abs() == Done(old(Abs()), id, answer)
    {
      hide PrependMy, Edited, WithCache;
      var peer, key, self := inFlight[id].request.peer, inFlight[id].request.link, inFlight[id].self;
      var callbacks := TakeOut(id, Replied(inFlight[id], answer));
      ghost var rest, c := Abs(), CachedOf(peer);
      if answer.invite.NoLink? {
        CacheIsThere(rest, peer);
        assert called == called + [];
        return;
      }
      ReplaceEdited(peer, key, answer.invite.link);
      CallAll(callbacks, answer.invite);
      CacheAfterCalls(rest, peer, Edited(c, key, answer.invite.link), called);
      rest := rest.(called := called);
      CacheAfterEdit(rest, peer, key, answer.invite.link);
      if answer.ReplacedBy? && answer.next.Some? && self {
        PrependMyToFirstSlice(peer, answer.next.link);
        ghost var edited := Edited(c, key, answer.invite.link);
        WithCacheTwice(rest, peer, edited, PrependMy(edited, answer.next.link));
      }
    }

    method ParseSlice(peer: PeerId, page: seq<Parsed>) returns (parsed: seq<Link>)
      ensures parsed == ParseLinks(CachedOf(peer), page)
    {
      var had := peer in firstSlices && HasPermanent(firstSlices[peer].links);
      var permanent := if had then firstSlices[peer].links[0].link else 0;
      ghost var c := CachedOf(peer);
      parsed := [];
      for i := 0 to |page|
        invariant ParseLinks(c, page) == parsed + ParseLinks(c, page[i..])
      {
        assert page[i..][1..] == page[i + 1..];
        if page[i].Some? && (!had || page[i].link.link != permanent) {
          parsed := parsed + [page[i].link];
        }
      }
    }

    /** What the answer to requestMyLinks does to the slice. */
    method TakeSlice(peer: PeerId, count: int, page: seq<Parsed>)
      modifies `firstSlices, `stored
      ensures Abs() == WithCache(old(Abs()), peer, Reloaded(old(CachedOf(peer)), count, page))
    {
      var parsed := ParseSlice(peer, page);
      hide ParseLinks, PermanentToFront, WithoutLive;
      if peer !in firstSlices || !HasPermanent(firstSlices[peer].links) {
        var links := BringPermanentToFront(parsed);
        firstSlices := firstSlices[peer := Links(links, count)];
        if HasPermanent(links) {
          EditPermanentLink(peer, links[0].link);
        }
      } else {
        var others := RemovePermanent(parsed);
        var existing := firstSlices[peer].links[..1] + others;
        assert existing == [firstSlices[peer].links[0]] + others;
        firstSlices := firstSlices[peer := Links(existing, Max(count, |existing|))];
      }
    }

    /** The done handler of requestMyLinks. */
    method FirstSliceDone(id: nat, count: int, page: seq<Parsed>)
      requires HasCallbacks(Abs(), id) && inFlight[id].request.FirstSlice?
      modifies `waiting, `requestOf, `inFlight, `replies, `firstSlices, `stored
      ensures Abs() == Done(old(Abs()), id, Page(count, page))
    {
      hide WithCache, Reloaded;
      var peer := inFlight[id].request.peer;
      var _ := TakeOut(id, Replied(inFlight[id], Page(count, page)));
      assert called == called + [];
      TakeSlice(peer, count, page);
    }

    method SetPermanent(peer: PeerId, invite: Parsed)
      modifies `firstSlices, `stored
      ensures Abs() == WithCache(old(Abs()), peer, SetMyPermanent(old(CachedOf(peer)), invite))
    {
      if invite.NoLink? || !invite.link.permanent {
        return;
      }
      var link := invite.link;
      var links := if peer in firstSlices then firstSlices[peer].links else [];
      var count := if peer in firstSlices then firstSlices[peer].count else 0;
      if HasPermanent(links) {
        if links[0].link == link.link {
          if links[0].usage != link.usage {
            links := links[0 := links[0].(usage := link.usage)];
          }
          assert links == [links[0]] + links[1..];
          firstSlices := firstSlices[peer := Links(links, count)];
          return;
        }
        links := links[1..];
        if count > 0 {
          count := count - 1;
        }
      }
      firstSlices := firstSlices[peer := Links([link] + links, count)];
      EditPermanentLink(peer, link.link);
    }

    method ClearPermanent(peer: PeerId)
      modifies `firstSlices, `stored
      ensures Abs() == WithCache(old(Abs()), peer, ClearMyPermanent(old(CachedOf(peer))))
    {
      if peer !in firstSlices || !HasPermanent(firstSlices[peer].links) {
        return;
      }
      var links, count := firstSlices[peer].links, firstSlices[peer].count;
      links := links[1..];
      if count > 0 {
        count := count - 1;
      }
      firstSlices := firstSlices[peer := Links(links, count)];
      EditPermanentLink(peer, 0);
    }

    method ApplyExternalUpdate(peer: PeerId, updated: Link)
      modifies `firstSlices
      ensures Abs() == WithCache(old(Abs()), peer, Updated(old(CachedOf(peer)), updated))
    {
      if peer in firstSlices {
        var links := firstSlices[peer].links;
        for i := 0 to |links|
          invariant |links| == |old(firstSlices)[peer].links|
          invariant forall k :: 0 <= k < |links| ==>
            links[k] == if k < i then Replaced(old(firstSlices)[peer].links, updated)[k]
              else old(firstSlices)[peer].links[k]
        {
          if links[i].link == updated.link {
            links := links[i := updated];
          }
        }
        assert links == Replaced(old(firstSlices)[peer].links, updated);
        firstSlices := firstSlices[peer := Links(links, firstSlices[peer].count)];
      }
    }

    /** processRequest of an unknown link, approved: the slice is forgotten. */
    method ForgetSlice(peer: PeerId)
      modifies `firstSlices
      ensures Abs() == WithCache(old(Abs()), peer, Pruned(old(CachedOf(peer))))
    {
      firstSlices := firstSlices - {peer};
    }
  }
}
