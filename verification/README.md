# Verified models of Telegram Desktop's request logic

This project models the self-contained algorithms and the asynchronous protocols of
the client that have hard invariants, and proves these invariants for all inputs and
all runs.  `dafny verify dfyconfig.toml` checks it.

The network is an environment that does as it likes: request ids are fresh and
positive, what is on the network is a map, and answers come in any order, each a
success or a failure.  A cancelled request leaves the map.  Each protocol has

* a `State` and functions for its operations and answers;
* invariants, each kept by every step, and theorems over every run of events;
* a class with the source's fields, whose methods and loops are proved equal to those
  functions (`Abs()` is the state of the object).

What the source reads from outside - clocks, random ids, whether an item or a filter
is there - are parameters.  Objects that are keys of an ordered map are numbers, and
loops over such a map visit them in increasing order.

| file | what it models |
|---|---|
| `Fips180.dfy`, `Packer.dfy` | the packer's SHA-1, against FIPS 180-4 sections 4.1.1, 4.2.1, 5.1.1, 5.2.1, 5.3.1 and 6.1.2 |
| `ApiHash.dfy` | the 64-bit rolling hash and the hashes of sticker sets |
| `MessageData.dfy` | batching of message-data requests |
| `WebPages.dfy` | the web-page resolver and its temporary ids |
| `FileReferences.dfy` | one file-reference request per origin |
| `Dialogs.dfy` | the two-track dialogs loader |
| `StickerSets.dfy` | saving sticker sets, and overlapping saves |
| `Forwarding.dfy` | forwarding in batches, payment and the success callback |
| `Albums.dfy` | albums under uploads, cancellations and answers |
| `InviteLinks.dfy` | the cache of a user's own invite links |
| `MessagesSearch.dfy`, `MessagesSearchMerged.dfy` | a paged search, and two of them merged |
| `BlockedPeers.dfy` | blocking and unblocking |
| `FlatMap.dfy` | the least element of a set, for loops over ordered maps |

Where a promise of the code does not hold without a condition, the exact condition is
proved and inputs are given for which it fails:

| promise | exact condition | fails for |
|---|---|---|
| the SHA-1 pads as the standard does | `Packer.FitsLength`: below 2^29 bytes | `Packer.FitsLength`: every longer message |
| a dialogs list goes on | `Dialogs.StalledIff`, `Dialogs.ListRequestIff`: no "not modified" answer | `Dialogs.NotModifiedStopsForGood`, and the run `Dialogs.NotModifiedStallsList` |
| a complete album is sent | `Albums.SentIff`, `Albums.StuckIff`: its last missing file was not one that cannot be prepared | the run `Albums.UnpreparedFileStallsAlbum` |
| the permanent link is in front | `InviteLinks.StepAgreesIff` | the run `InviteLinks.TwoPermanentDisagree` |
| the count covers the invite links | `InviteLinks.StepCountsIff` | the run `InviteLinks.FirstPermanentIsNotCounted` |
| a late failure of an empty search does no harm | `MessagesSearchMerged.LateFailureHarmlessIff` | the run `MessagesSearchMerged.LateFailureSpoilsList` |
| a search goes on where it was | `MessagesSearch.StartsOverIff`: the last page was not empty | the run `MessagesSearch.EmptyPageStartsOver` |
| an unsent page is watched by the timer | `WebPages.ResolveWatchesIff`: messages show the due pages, or another page waits | the run `WebPages.UnshownPageIsStuck` |
| an unblock's callback is told its own result | `BlockedPeers.OwnAnswerIff`: nothing else is on the network for the peer | `BlockedPeers.OvertakenIsToldWrong`, and the run `BlockedPeers.ReversedIsToldFalse` |

In `MessagesSearchMerged` a run counts as long as `active` is set: the last search was
started with everything cleared and a token, nothing was cleared or searched again
since, and no superseded request has failed for an empty query where that does harm.

## Model

| member | source | states |
|---|---|---|
| Packer.HashSha1 | Telegram/SourceFiles/_other/packer.cpp:103-139 | for every buffer on which the 32-bit block counter does not wrap, the digest is that of the message padded with the low 32 bits of its bit length; below 2^29 bytes it is exactly the SHA-1 of FIPS 180-4; nothing past the 20 digest bytes is written |
| Packer.FitsLength | Telegram/SourceFiles/_other/packer.cpp:118-130 | the padded message equals that of FIPS 180-4 section 5.1.1 if and only if the message is shorter than 2^29 bytes; from there on every message is one for which it does not |
| Fips180.PaddingIsLeast | Telegram/SourceFiles/_other/packer.cpp:118-130 | the zeros that the one-block and two-block tails leave are the least number that section 5.1.1 allows |
| Packer.Sha1PartHash | Telegram/SourceFiles/_other/packer.cpp:67-99 | the five loops over the in-place 80-word schedule compute the block step of section 6.1.2 |
| Packer.RoundFunctions | Telegram/SourceFiles/_other/packer.cpp:85-89 | in each of the five loops the function, which the source writes with a bitwise or, is the one that section 4.1.1 gives with an exclusive or for these rounds |
| Packer.ShiftIsRotation | Telegram/SourceFiles/_other/packer.cpp:63-65 | the shift-and-or is a rotation for each of the three amounts that are used |
| Packer.OrByteInto | Telegram/SourceFiles/_other/packer.cpp:121-124 | OR-ing a byte into place extends the big-endian tail by exactly that byte |
| Packer.WriteDigest | Telegram/SourceFiles/_other/packer.cpp:132-136 | the backward loop writes the five words most significant byte first, and nothing else |
| ApiHash.MixIsBijective | Telegram/SourceFiles/api/api_hash.h:40-43 | the three xor-shifts together can be undone: the mixing is a bijection on 64-bit states |
| ApiHash.MixIsLinear | Telegram/SourceFiles/api/api_hash.h:40-43 | each bit of the state is mixed by itself: the lowest goes on to bits 35 and 31, the highest to bits 59, 42 and 38 |
| ApiHash.UpdateIsBijective | Telegram/SourceFiles/api/api_hash.h:40-45 | with the value fixed the update is a bijection on states, with the state fixed it is one on values |
| ApiHash.WideningIsInjective | Telegram/SourceFiles/api/api_hash.h:47-57 | the conversions of the 32-bit and signed overloads confuse no two values of one type |
| ApiHash.SignExtendedIs | Telegram/SourceFiles/api/api_hash.h:55-57 | a negative 32-bit value is widened to the 64-bit value with the same distance from 0 |
| ApiHash.CountHash | Telegram/SourceFiles/api/api_hash.h:63-70 | the loop computes the hash of the list that the lemmas are about |
| ApiHash.ListIsBijective | Telegram/SourceFiles/api/api_hash.h:63-70 | hashing any fixed list is a bijection on states |
| ApiHash.OnePlaceChangesHash | Telegram/SourceFiles/api/api_hash.h:63-70 | two lists that agree around one place have the same hash if and only if they agree there |
| ApiHash.ListsDifferingOnce | Telegram/SourceFiles/api/api_hash.h:63-70 | lists of equal length that differ at exactly one index always differ in hash |
| ApiHash.OnlyOneValueFits | Telegram/SourceFiles/api/api_hash.h:63-70 | with all other values fixed every hash is reached by exactly one choice of a 64-bit value |
| ApiHash.CountDocumentVectorHash | Telegram/SourceFiles/api/api_hash.cpp:18-25 | the hash of the list of the document ids |
| ApiHash.CountStickersOrderHash | Telegram/SourceFiles/api/api_hash.cpp:38-61 | 0 if outdated information was asked for and found, else the hash of the counted sets in order |
| ApiHash.SetChangeIsNoticed | Telegram/SourceFiles/api/api_hash.cpp:38-61 | changing the hash of one counted set that stands once in the order leaves the result the same if and only if the hash is the same or the outdated set forces 0 |
| ApiHash.OthersAreNotNoticed | Telegram/SourceFiles/api/api_hash.cpp:38-61 | whatever changes of a set that is special, archived or the default one, and stays so, the hash is the same |
| ApiHash.OutdatedAsksForAll | Telegram/SourceFiles/api/api_hash.cpp:38-61 | the hash is 0 if outdated information is asked for and the default set is known and ordered; else asking changes nothing |
| ApiHash.CountFeaturedHash | Telegram/SourceFiles/api/api_hash.cpp:63-78 | the hash of the set ids with a 1 after each unread set |
| ApiHash.FeaturedReplacementIsNoticed | Telegram/SourceFiles/api/api_hash.cpp:63-78 | putting another set, as unread as the old one, in one place of the order always changes the hash |
| MessageData.AtRestEverythingFired | Telegram/SourceFiles/apiwrap.cpp:618-749 | with no resolve queued and nothing on the network both kinds of map are empty, and message by message the callbacks have fired exactly as registered and in that order, also when callbacks request again |
| MessageData.EachRegistrationCounts | Telegram/SourceFiles/apiwrap.cpp:618-749 | in every reachable state each callback was registered as often as it has fired and is pending |
| MessageData.RequestsCarryTheirEntries | Telegram/SourceFiles/apiwrap.cpp:663-717 | a request on the network carries some id, and carries an id exactly if the entry of that id in the map of its channel names it; no entry of another map does |
| MessageData.ResolveSendsUnsent | Telegram/SourceFiles/apiwrap.cpp:663-717 | a resolve clears its flag and sends, for the common map and for each channel, one new request with exactly the ids that were unsent, in increasing order; their entries name it, an entry that named a request keeps it, and callbacks stay |
| MessageData.NothingUnsentAfterResolve | Telegram/SourceFiles/apiwrap.cpp:663-717 | in every run nothing is unsent once a resolve has run |
| MessageData.RequestRegisters | Telegram/SourceFiles/apiwrap.cpp:618-631 | in every run a call adds its callback at the end of those of its message, which is on the network or for which a resolve is queued, and changes no other message |
| MessageData.AnswerFires | Telegram/SourceFiles/apiwrap.cpp:719-749 | an answer fires the callbacks of exactly the entries that name its request, message by message and in their order, and registers what these ask, in order |
| MessageData.EveryCallbackComes | Telegram/SourceFiles/apiwrap.cpp:618-749 | from every reachable state one resolve and an answer to each request fire every callback that was ever passed in, as long as callbacks ask nothing more |
| MessageData.CollectMessageIds | Telegram/SourceFiles/apiwrap.cpp:633-644 | the ids of the entries without a request, in the order of the map |
| MessageData.MarkUnsent | Telegram/SourceFiles/apiwrap.cpp:681-686 | exactly the entries without a request get the new id |
| MessageData.TakeAnswered | Telegram/SourceFiles/apiwrap.cpp:726-742 | the answered entries are taken out and their callbacks collected in order |
| MessageData.ApiWrap.RequestMessageData | Telegram/SourceFiles/apiwrap.cpp:618-631 | registers in the map of the channel and queues the resolve unless the entry has a request |
| MessageData.ApiWrap.ResolveMessageDatas | Telegram/SourceFiles/apiwrap.cpp:663-717 | the resolve step that the runs are made of |
| MessageData.ApiWrap.FinalizeMessageDataRequest | Telegram/SourceFiles/apiwrap.cpp:719-749 | takes the answered entries out, drops an empty channel, then runs the callbacks, which may request again |
| MessageData.ApiWrap.ReceiveAnswer | Telegram/SourceFiles/apiwrap.cpp:672-679 | both handlers of a request finalize it alike |
| WebPages.DuePageIsRequested | Telegram/SourceFiles/apiwrap.cpp:2409-2481 | a due page ends with the id of a new request, which went where its message is and carries that message's id for this page |
| WebPages.RequestsAreForDuePages | Telegram/SourceFiles/apiwrap.cpp:2409-2481 | a new request carries exactly the due pages of its channel, or of no channel, and each of them names it |
| WebPages.OtherPagesAreUntouched | Telegram/SourceFiles/apiwrap.cpp:2417-2420 | a page that was sent before or is not due keeps its request id |
| WebPages.EveryRunKeeps | Telegram/SourceFiles/apiwrap.cpp:2409-2485 | in every reachable state no page holds a temporary negative id, and each id held is that of a request made for this page |
| WebPages.LeastWaitIsLeast | Telegram/SourceFiles/apiwrap.cpp:2444-2484 | the timer's wait is the least one of the unsent pages not yet due: a bound, and attained |
| WebPages.RequestStartsTimer | Telegram/SourceFiles/apiwrap.cpp:2386-2395 | a page that is known, pending and not failed is among those asked for after the call, and the timer is active: set to just after the page is due unless it goes off sooner |
| WebPages.ClearingStopsTimer | Telegram/SourceFiles/apiwrap.cpp:2397-2407 | a cleared page alone is asked for no longer, and the timer stops with the last one |
| WebPages.ResolveSetsTimer | Telegram/SourceFiles/apiwrap.cpp:2417-2484 | after a resolve the timer is active if and only if a page waits that is not due yet, and goes off when the first of them is due, or after a day |
| WebPages.ResolveWatchesIff | Telegram/SourceFiles/apiwrap.cpp:2417-2484 | a resolve leaves no unsent page without a timer if and only if every due page was shown by a message, or another page waits |
| WebPages.UnsentAreWatched | Telegram/SourceFiles/apiwrap.cpp:2386-2485 | in every run in which each timer finds the messages of the due pages, the timer is active as long as some page is unsent |
| WebPages.UnshownPageIsStuck | Telegram/SourceFiles/apiwrap.cpp:2421-2446 | a run in which a due page that no message shows is neither asked for nor watched |
| WebPages.DecodeTemporaryIds | Telegram/SourceFiles/apiwrap.cpp:2469-2480 | every index that a temporary id encodes is in range, and the id is replaced by that of the request it stands for |
| WebPages.CollectDue | Telegram/SourceFiles/apiwrap.cpp:2415-2446 | the loop that numbers the requests and sorts the due pages into them, with the least wait of the others |
| WebPages.SettleAnswered | Telegram/SourceFiles/apiwrap.cpp:2733-2744 | exactly the pages waiting for the answered request are erased, and those still pending fail |
| WebPages.AnswerSettlesItsPages | Telegram/SourceFiles/apiwrap.cpp:2728-2746 | after an answer no page waits for its request any more, and each that did was among those it was made for and is settled; a page that waits for another request goes on waiting for it if and only if nothing in the answer clears it |
| WebPages.AnswerLeavesOthers | Telegram/SourceFiles/apiwrap.cpp:2728-2746 | a page that the answer does not show and that waits for another request, or for none, stays as it is |
| WebPages.ClearedWaitsForNone | Telegram/SourceFiles/data/data_web_page.cpp:311-313 | a page that the answer cleared waits for no request, even if it was asked for again |
| WebPages.UnshownFails | Telegram/SourceFiles/apiwrap.cpp:2733-2744 | a page that waited for the answer and is not shown by it fails if it was still pending |
| WebPages.FailedPageWaitsIff | Telegram/SourceFiles/apiwrap.cpp:2409-2485 | in every run a page goes on waiting for a request that failed if and only if nothing clears it, for there is no fail handler |
| WebPages.DescribedIs | Telegram/SourceFiles/data/data_web_page.cpp:246-332 | what the server says of a page decides whether it is taken over, has failed, is asked for no longer or is asked for |
| WebPages.ApiWrap.ApplyPage | Telegram/SourceFiles/data/data_web_page.cpp:246-332 | what is kept, cleared and stored when the server describes a page |
| WebPages.ApiWrap.ProcessWebpage | Telegram/SourceFiles/data/data_session.cpp:4282-4305 | an empty page that was pending fails, any other description is applied and asked for again if it is newly pending |
| WebPages.ApiWrap.RequestWebPageDelayed | Telegram/SourceFiles/apiwrap.cpp:2386-2395 | adds a page that is pending and moves the timer forward if it is due sooner |
| WebPages.ApiWrap.ResolveWebPages | Telegram/SourceFiles/apiwrap.cpp:2409-2485 | the three loops together: collect, send, decode, and the timer |
| WebPages.ApiWrap.GotWebPages | Telegram/SourceFiles/apiwrap.cpp:2728-2746 | the handler of the answer: its pages are applied in order, then those of its request settled |
| FileReferences.HandlersMatchRequests | Telegram/SourceFiles/apiwrap.cpp:2487-2538 | in every reachable state an origin has handlers exactly if a request for it is on the network, no origin has two, and the extra handler is there at most once |
| FileReferences.AtRestEveryHandlerRan | Telegram/SourceFiles/apiwrap.cpp:2487-2573 | with nothing on the network every handler has run exactly as often as it was passed in, also when handlers ask for the same origin again |
| FileReferences.AnswerRunsHandlers | Telegram/SourceFiles/apiwrap.cpp:2501-2537 | in every run an answer runs exactly the handlers that waited for its origin, in the order in which they were passed in, and tells each whether there are references |
| FileReferences.RefreshWaits | Telegram/SourceFiles/apiwrap.cpp:2488-2573 | a call that leads to a request lets its handler wait behind those of its origin, and sends a request exactly if there are none |
| FileReferences.ExtraHandlerOncePerRequest | Telegram/SourceFiles/apiwrap.cpp:2557-2573 | the extra handler is attached exactly if the call asks for one and makes a new request |
| FileReferences.TakingOutKeeps | Telegram/SourceFiles/apiwrap.cpp:2522-2533 | the answered origin has its handlers, so the assertions of both handlers hold, and taking them out keeps the invariant |
| FileReferences.ApiWrap.RequestFileReference | Telegram/SourceFiles/apiwrap.cpp:2488-2538 | joins the handlers of the origin, or sends its one request |
| FileReferences.ApiWrap.RefreshFileReference | Telegram/SourceFiles/apiwrap.cpp:2551-2573 | the request with its extra handler, or the handler called at once |
| FileReferences.ApiWrap.ReceiveAnswer | Telegram/SourceFiles/apiwrap.cpp:2501-2537 | erases the origin, then runs the handlers it had, which may call again |
| Dialogs.ListRequestIff | Telegram/SourceFiles/apiwrap.cpp:900-1078 | in every reachable state a list request for a folder is on the network exactly if its state has a request id, has not received its list and was not stalled by a "not modified" answer; never two |
| Dialogs.FailListKeeps | Telegram/SourceFiles/apiwrap.cpp:962-964 | the failed folder still has its load state, so the unchecked dereference is safe |
| Dialogs.DoneOncePerLifetime | Telegram/SourceFiles/apiwrap.cpp:1061-1078 | chatsListDone is posted once for each load state, when it goes, and then nothing is on the network for it |
| Dialogs.BlockedMeansIdle | Telegram/SourceFiles/apiwrap.cpp:974-984 | while the date blocks, the main list exists, is unfinished and has no request; no list is ever requested while blocked or after it was received |
| Dialogs.StalledIff | Telegram/SourceFiles/apiwrap.cpp:927-946 | after any event a folder is stalled if and only if it was before, or a request of its own was answered by "not modified" |
| Dialogs.NotModifiedStopsForGood | Telegram/SourceFiles/apiwrap.cpp:927-946 | after such an answer, whatever follows, the list of the folder is never received and never on the network again |
| Dialogs.NotModifiedStallsList | Telegram/SourceFiles/apiwrap.cpp:927-946 | a run in which this happens to the main list |
| Dialogs.EveryRunKeeps | Telegram/SourceFiles/apiwrap.cpp:893-1123 | every step keeps: list and pinned requests match the load states one to one, a received list keeps its request id, no finished state stays, and the blocked flag means an idle unfinished main list |
| Dialogs.RequestsGoOn | Telegram/SourceFiles/apiwrap.cpp:905-1044 | in every run each list request carries the date of the last dated dialog, and the id and peer of the last listed one, of the slice that its folder was answered last; the first of a load state carries none, and asks for 20 instead of 500 |
| Dialogs.AnswerEndsListIff | Telegram/SourceFiles/apiwrap.cpp:925-1050 | an answer ends the list of its folder if and only if it has all dialogs, or a slice in which no dialog is dated |
| Dialogs.AskedIff | Telegram/SourceFiles/apiwrap.cpp:893-924 | a list is asked for, by one request, if and only if the date does not block and its folder waits for nothing |
| Dialogs.NextPageIsAskedIff | Telegram/SourceFiles/apiwrap.cpp:925-962 | after a slice of the main list with a dated dialog the next one is on the network if and only if what was loaded is later than the date limit |
| Dialogs.NeededIsAsked | Telegram/SourceFiles/apiwrap.cpp:986-1004 | the main list is asked for while it is unfinished, and then the archive if it is needed; nothing while exceptions are loaded |
| Dialogs.PinnedAskedIff | Telegram/SourceFiles/apiwrap.cpp:1080-1097 | pinned dialogs are asked for if and only if their folder has a load state that neither has them nor waits for them |
| Dialogs.LimitMoves | Telegram/SourceFiles/apiwrap.cpp:1113-1123 | the limit moves to the given time before what was loaded last, or before now, and the list goes on unless it is under way or blocked again |
| Dialogs.BlockedIff | Telegram/SourceFiles/apiwrap.cpp:974-984 | in every run in which no list request fails the date limit blocks if and only if the main list is unfinished and idle and what was loaded of it reaches the limit |
| Dialogs.ReceivedListFinishes | Telegram/SourceFiles/apiwrap.cpp:1061-1110 | in every run a folder whose list was received waits for its pinned dialogs alone, which are on the network; their answer ends its load state and posts that |
| Dialogs.PinnedAnswerIs | Telegram/SourceFiles/apiwrap.cpp:1086-1110 | whatever is answered, the pinned dialogs end a load state whose list was received, and have come for any other |
| Dialogs.DateForIsLast | Telegram/SourceFiles/apiwrap.cpp:1026-1034 | the date of a dialog is that of the last listed message of its peer and id, dated or not |
| Dialogs.OffsetDateIsLast | Telegram/SourceFiles/apiwrap.cpp:1010-1039 | there is an offset date exactly if some dialog has a dated message, and it is that of the last such dialog |
| Dialogs.LastListedIsLast | Telegram/SourceFiles/apiwrap.cpp:1017-1025 | the offset peer and id are those of the last dialog with a peer and a message, which may be another dialog |
| Dialogs.ScanOffset | Telegram/SourceFiles/apiwrap.cpp:1010-1039 | the two nested backward loops find that date, peer and id |
| Dialogs.FindDate | Telegram/SourceFiles/apiwrap.cpp:1026-1034 | the inner backward loop |
| Dialogs.ApiWrap.RequestMoreDialogs | Telegram/SourceFiles/apiwrap.cpp:900-972 | sends the list and pinned requests, or nothing |
| Dialogs.ApiWrap.UpdateDialogsOffset | Telegram/SourceFiles/apiwrap.cpp:1006-1051 | moves the offset on, or marks the list as received if no date was found |
| Dialogs.ApiWrap.ReceiveDialogs | Telegram/SourceFiles/apiwrap.cpp:925-962 | the done handler of a list request, whatever the answer |
| Dialogs.ApiWrap.DialogsFailed | Telegram/SourceFiles/apiwrap.cpp:962-964 | the fail handler, with the state it dereferences |
| Dialogs.ApiWrap.FinalizePinned | Telegram/SourceFiles/apiwrap.cpp:1086-1110 | both handlers of a pinned request |
| Dialogs.ApiWrap.RequestMoreBlockedByDateDialogs | Telegram/SourceFiles/apiwrap.cpp:1113-1123 | moves the date limit and goes on |
| StickerSets.InstalledIffOrdered | Telegram/SourceFiles/apiwrap.cpp:1708-1754 | of the sets that are left, those of the saved type that are not archived are installed exactly if they are in the stored order |
| StickerSets.OrderedAreInstalled | Telegram/SourceFiles/apiwrap.cpp:1720-1754 | every set of the stored order is there and installed |
| StickerSets.KnownIs | Telegram/SourceFiles/apiwrap.cpp:1720-1749 | the stored order is the given one with the sets left out that are unknown after the removals, as often as each was listed |
| StickerSets.RemovedAreNotInstalled | Telegram/SourceFiles/apiwrap.cpp:1625-1705 | a removed set that was not archived and is not in the order is gone or not installed |
| StickerSets.NothingIdleIsLeft | Telegram/SourceFiles/apiwrap.cpp:1756-1768 | no set is left that meets none of the conditions for keeping it |
| StickerSets.OthersAreUntouched | Telegram/SourceFiles/apiwrap.cpp:1625-1768 | a set neither ordered nor removed, archived or of another type, is not changed, and goes exactly if nothing keeps it |
| StickerSets.SavedIs | Telegram/SourceFiles/apiwrap.cpp:1625-1768 | what the four loops make of each set by itself: whether it stays known, is installed and archived, and its date; the cloud sets and the custom one go together |
| StickerSets.RequestsAre | Telegram/SourceFiles/apiwrap.cpp:1625-1748 | what one call asks for of each set, together: an archived set of the order is installed once unless it was removed, a removed set is uninstalled, the cloud sets never are |
| StickerSets.OrderIsKept | Telegram/SourceFiles/apiwrap.cpp:1720-1749 | the stored order is the given one from front to back |
| StickerSets.InstallsAre | Telegram/SourceFiles/apiwrap.cpp:1727-1748 | an archived set of the order is asked to be installed exactly once, unless it was removed |
| StickerSets.UninstallsAre | Telegram/SourceFiles/apiwrap.cpp:1661-1705 | a removed set is asked to be uninstalled once, or as often as it is listed if it stays known |
| StickerSets.RecentKeeps | Telegram/SourceFiles/apiwrap.cpp:1637-1671 | a sticker stays in the recent pack exactly if neither a cloud set nor a known set that holds it was removed |
| StickerSets.StoredIdsAreLatest | Telegram/SourceFiles/apiwrap.cpp:1549-1602 | in every run of overlapping calls the stored ids are exactly the unanswered installs and uninstalls, all of the latest call |
| StickerSets.OneReorderAtATime | Telegram/SourceFiles/apiwrap.cpp:1556-1602 | at most one reorder is on the network, and then no install or uninstall is |
| StickerSets.ReorderOncePerCall | Telegram/SourceFiles/apiwrap.cpp:1556-1602 | no call sends two reorders, and each carries the order of its call |
| StickerSets.LatestOrderIsSent | Telegram/SourceFiles/apiwrap.cpp:1802-1806 | at rest the latest call has sent its reorder exactly if it saved two sets or more |
| StickerSets.CallSends | Telegram/SourceFiles/apiwrap.cpp:1549-1602 | in every run a call cancels all that is on the network and sends as many installs and uninstalls as it has; its reorder is sent at once if and only if it has none and saves two sets or more |
| StickerSets.EveryRunKeeps | Telegram/SourceFiles/apiwrap.cpp:1549-1602 | every call and every answer keeps: all on the network is of the latest call, a reorder is there only without installs and uninstalls, and the latest call has sent its reorder exactly when nothing else of it is unanswered |
| StickerSets.ClearInstalled | Telegram/SourceFiles/apiwrap.cpp:1708-1718 | the loop clears the installed flags of the type, archived sets excepted |
| StickerSets.Sweep | Telegram/SourceFiles/apiwrap.cpp:1756-1768 | the loop erases exactly the sets that nothing keeps |
| StickerSets.EraseRecent | Telegram/SourceFiles/apiwrap.cpp:1664-1671 | the erasing loop leaves the other stickers in order |
| StickerSets.ApiWrap.RemoveSets | Telegram/SourceFiles/apiwrap.cpp:1625-1705 | the loop over the removed sets, with the requests that it sends |
| StickerSets.ApiWrap.PlaceSets | Telegram/SourceFiles/apiwrap.cpp:1720-1754 | the loop over the order, with the requests that it sends |
| StickerSets.ApiWrap.SaveStickerSets | Telegram/SourceFiles/apiwrap.cpp:1533-1806 | one call: the sets, the order, the recent pack, and what it puts on the network |
| StickerSets.ApiWrap.ReceiveAnswer | Telegram/SourceFiles/apiwrap.cpp:1572-1602 | an answer takes its id out and sends the reorder after the last one |
| Forwarding.Forward.ForwardMessages | Telegram/SourceFiles/apiwrap.cpp:3504-3757 | the saved music goes out as documents; the other messages go, in order and with their random ids, in non-empty batches of one peer with different neighbours; together the batches pay the price of all messages, capped by the approved stars, which drop by that; an empty draft runs the callback at once |
| Forwarding.Forward.SendInBatches | Telegram/SourceFiles/apiwrap.cpp:3617-3755 | the accumulating loop splits the messages into such batches |
| Forwarding.Forward.SendAccumulated | Telegram/SourceFiles/apiwrap.cpp:3622-3715 | one batch: what it carries, what it pays and what it counts |
| Forwarding.MaximalRunsAreUnique | Telegram/SourceFiles/apiwrap.cpp:3719-3755 | there is only one way to split the messages into such batches |
| Forwarding.GreedyTotal | Telegram/SourceFiles/apiwrap.cpp:3628-3635 | paying batch by batch comes to the lesser of the approved stars and the price of all the messages |
| Forwarding.KeptIs | Telegram/SourceFiles/apiwrap.cpp:3528-3536 | exactly the items that are not saved music are forwarded, as often as they were listed |
| Forwarding.Forward.SendSavedMusic | Telegram/SourceFiles/apiwrap.cpp:3528-3536 | the erasing loop |
| Forwarding.CallbackRunsOnce | Telegram/SourceFiles/apiwrap.cpp:3622-3688 | after all the requests are sent, the success callback has run exactly if every one has succeeded, and then once, whatever the order of the answers |
| Forwarding.CallbackIffNoneFailed | Telegram/SourceFiles/apiwrap.cpp:3622-3710 | when all are answered it has run once if none failed, and else never |
| Forwarding.CallbackRunsPerRestart | Telegram/SourceFiles/apiwrap.cpp:3681-3688 | however sends and answers alternate, the callback runs exactly once for each time that requests were started afresh and all have succeeded since |
| Forwarding.Forward.ReceiveFail | Telegram/SourceFiles/apiwrap.cpp:3698-3710 | a failed batch reports its own local messages |
| Forwarding.Forward.ReceiveDone | Telegram/SourceFiles/apiwrap.cpp:3681-3688 | a batch that succeeded lowers the counter and runs the callback at zero |
| Albums.SentAtMostOnce | Telegram/SourceFiles/apiwrap.cpp:4987-5082 | under any interleaving of preparations, uploads, cancellations and answers no album is sent twice |
| Albums.SendsCarryTheRest | Telegram/SourceFiles/apiwrap.cpp:4987-5082 | every request for an album carries what was uploaded for exactly the files not removed, in album order, with nothing missing; one file goes as a single message and a paid album as one |
| Albums.SentIff | Telegram/SourceFiles/apiwrap.cpp:4954-5082 | in every run a request for an album goes out, is on the network and pays the lesser of its cost and what is approved if and only if the event brings the last media that was missing, or destroys an item while all others have media and a message of theirs exists; else nothing goes out |
| Albums.ForgottenIff | Telegram/SourceFiles/apiwrap.cpp:4938-5010 | an album that is not sent then leaves the registry if and only if an item is destroyed, nothing else is missing and no message is left, or it is answered |
| Albums.AtRestEveryAlbumIsSent | Telegram/SourceFiles/apiwrap.cpp:4913-5082 | if no upload fails and no message vanishes, then once nothing is prepared or uploaded any more every album there ever was has been sent, once, but for those without files left and those that are stuck |
| Albums.NewAlbumIs | Telegram/SourceFiles/apiwrap.cpp:3987-3993 | a new album has an item for each file, all of them new and to be prepared |
| Albums.PreparedIs | Telegram/SourceFiles/api/api_sending.cpp:571-580 | a prepared file gets a new message, which exists and is being uploaded |
| Albums.UploadedIs | Telegram/SourceFiles/apiwrap.cpp:4954-4967 | the media of an upload is that of its file, under a new random id, and no other file's changes |
| Albums.RandomIdsDiffer | Telegram/SourceFiles/storage/localimageloader.cpp:370-379 | in every run no two files are uploaded under the same random id |
| Albums.UnpreparedIs | Telegram/SourceFiles/storage/localimageloader.cpp:1083-1094 | a file that cannot be prepared leaves its album, and nothing is sent |
| Albums.DestroyedIs | Telegram/SourceFiles/apiwrap.cpp:4969-4985 | a destroyed message is gone, and its file leaves the album that has it |
| Albums.AnsweredIs | Telegram/SourceFiles/apiwrap.cpp:4938-4946 | an answered request is off the network; the messages of a paid album that was sent go with it, and no others |
| Albums.AssertsNeverFail | Telegram/SourceFiles/apiwrap.cpp:4954-4985 | in every reachable state a finished upload of a message that exists finds its album and an item without media, and a cancelled one finds its item if the album is registered |
| Albums.StuckIff | Telegram/SourceFiles/apiwrap.cpp:4987-5010 | in every run an event leaves an album complete and unsent if and only if it takes out a file that cannot be prepared while all other items have media, or registers an album without files, or the album was so before and none of its messages was destroyed |
| Albums.StuckForGood | Telegram/SourceFiles/apiwrap.cpp:4987-5010 | such an album stays unsent through every continuation in which none of its messages is destroyed |
| Albums.ErasingMakesReady | Telegram/SourceFiles/storage/localimageloader.cpp:1083-1094 | what is left of the items is complete exactly if every other item has media |
| Albums.OnlyUnpreparedFilesStall | Telegram/SourceFiles/storage/localimageloader.cpp:1083-1094 | if every file can be prepared there is no such album |
| Albums.UnpreparedFileStallsAlbum | Telegram/SourceFiles/storage/localimageloader.cpp:1083-1094 | two files, the first uploaded and the second not preparable: all that is left has media and nothing is under way, yet nothing was sent |
| Albums.EveryRunKeeps | Telegram/SourceFiles/apiwrap.cpp:4913-5082 | every event keeps: each registered album holds what is left of its files in order with what was uploaded for each, messages and files under way are in unsent albums without media, a registered album is marked exactly if it was sent, and none was sent twice |
| Albums.CollectMedias | Telegram/SourceFiles/apiwrap.cpp:4996-5006 | the loop gives up at the first item without media, else collects the media in order and finds whether any message exists |
| Albums.FindAlbumItem | Telegram/SourceFiles/storage/localimageloader.cpp:131-141 | the first item of the message |
| Albums.ApiWrap.SendAlbumIfReady | Telegram/SourceFiles/apiwrap.cpp:4987-5082 | when the album is dropped, left, sent singly, sent as paid media or sent as an album |
| Albums.ApiWrap.SendMedias | Telegram/SourceFiles/apiwrap.cpp:5041-5070 | the request pays the lesser of its cost and the approved stars, and the album is marked as sent |
| Albums.ApiWrap.FillMedia | Telegram/SourceFiles/storage/localimageloader.cpp:370-379 | the item found gets its media and random id, the others stay |
| Albums.ApiWrap.EraseItem | Telegram/SourceFiles/storage/localimageloader.cpp:394-399 | the item is erased, the others keep their order |
| Albums.ApiWrap.SendAlbumWithUploaded | Telegram/SourceFiles/apiwrap.cpp:4954-4967 | the handler of a finished upload |
| Albums.ApiWrap.SendAlbumWithCancelled | Telegram/SourceFiles/apiwrap.cpp:4969-4985 | the handler of a destroyed message |
| Albums.ApiWrap.SendSucceeded | Telegram/SourceFiles/apiwrap.cpp:4938-4946 | an answered album is forgotten, a paid one with its messages |
| Albums.ApiWrap.SendFailed | Telegram/SourceFiles/apiwrap.cpp:5073-5081 | a failed album is forgotten, a failed paid one stays registered |
| Albums.ApiWrap.SendFiles | Telegram/SourceFiles/apiwrap.cpp:3987-3993 | registers an album with an item for each file |
| Albums.ApiWrap.SendConfirmedFile | Telegram/SourceFiles/api/api_sending.cpp:571-580 | the item of the file gets its local message |
| Albums.ApiWrap.RemoveFileFromAlbum | Telegram/SourceFiles/storage/localimageloader.cpp:1083-1094 | the item of the file is erased and the album not looked at |
| InviteLinks.StepAgreesIff | Telegram/SourceFiles/api/api_invite_links.cpp:143-323 | if in every first slice no live permanent link is behind the front and a front one is the stored link, then after any operation or answer this holds again if and only if the event was sound: an edit or an outside update revives no link elsewhere, a page brings at most one live permanent link |
| InviteLinks.EveryRunAgrees | Telegram/SourceFiles/api/api_invite_links.cpp:143-707 | in every run of sound events this holds for every peer |
| InviteLinks.HonestEditRevivesNone | Telegram/SourceFiles/api/api_invite_links.cpp:286-300 | an edit that keeps the link string and the permanence of a link that was not revoked is sound |
| InviteLinks.EditKeepsIff | Telegram/SourceFiles/api/api_invite_links.cpp:286-300 | replacing or erasing the edited link keeps the permanent link in place if and only if it revives none elsewhere |
| InviteLinks.EditedIs | Telegram/SourceFiles/api/api_invite_links.cpp:286-300 | the first link with the string goes if it is revoked now, else the edited one takes its place; all others stay |
| InviteLinks.ReplacingKeepsIff | Telegram/SourceFiles/api/api_invite_links.cpp:286-319 | a new permanent link in place of the edited one also sets right a front link that the edit changed |
| InviteLinks.ReloadKeepsIff | Telegram/SourceFiles/api/api_invite_links.cpp:426-451 | a reload keeps a cached permanent link in place; without one, exactly if the page has at most one; the count covers the list exactly if a permanent link was cached or the server counts enough |
| InviteLinks.ReloadIs | Telegram/SourceFiles/api/api_invite_links.cpp:426-451 | with a permanent link cached a reload leaves this link in front and each other link as often as the page has it, but for the permanent ones and those with its string; without one it leaves the whole page; behind the front the order is the page's |
| InviteLinks.UpdateKeepsIff | Telegram/SourceFiles/api/api_invite_links.cpp:522-531 | an outside update keeps the permanent link in place if and only if it revives none elsewhere |
| InviteLinks.UpdatedIs | Telegram/SourceFiles/api/api_invite_links.cpp:522-531 | an outside update takes the place of each link with its string, and of no other |
| InviteLinks.PrependKeeps | Telegram/SourceFiles/api/api_invite_links.cpp:162-205 | prepending any link keeps the permanent link in place and the count |
| InviteLinks.PrependedIsThere | Telegram/SourceFiles/api/api_invite_links.cpp:173-200 | after a prepend the link is there, in front and stored if permanent, and only an old permanent link that it replaces is gone |
| InviteLinks.SetPermanentKeeps | Telegram/SourceFiles/api/api_invite_links.cpp:620-676 | setMyPermanent keeps the permanent link in place |
| InviteLinks.SetPermanentIs | Telegram/SourceFiles/api/api_invite_links.cpp:620-676 | the permanent link that is set is in front and stored, in place of the one that was there; all others stay |
| InviteLinks.ClearPermanentKeeps | Telegram/SourceFiles/api/api_invite_links.cpp:678-707 | clearMyPermanent leaves no permanent link and clears the stored one |
| InviteLinks.ClearPermanentIs | Telegram/SourceFiles/api/api_invite_links.cpp:678-707 | clearing takes out the permanent link alone |
| InviteLinks.ToFrontPermutes | Telegram/SourceFiles/api/api_invite_links.cpp:28-36 | bringing the permanent link to the front changes the order only, and one is in front exactly if there is one |
| InviteLinks.ToFrontKeepsOrder | Telegram/SourceFiles/api/api_invite_links.cpp:28-36 | the other links keep their order |
| InviteLinks.ToFrontLeavesNoneBehind | Telegram/SourceFiles/api/api_invite_links.cpp:28-36 | none is left behind exactly if there was at most one |
| InviteLinks.WithoutLiveIs | Telegram/SourceFiles/api/api_invite_links.cpp:38-43 | removing the permanent links removes exactly those |
| InviteLinks.ParsedIs | Telegram/SourceFiles/api/api_invite_links.cpp:721-741 | a parsed page holds exactly its links but for the cached permanent one |
| InviteLinks.StepCountsIff | Telegram/SourceFiles/api/api_invite_links.cpp:162-451 | after any operation or answer every count is at least the number of cached links if and only if the event counts right: setMyPermanent had room or the link cached, a page counts its links |
| InviteLinks.EveryRunCounts | Telegram/SourceFiles/api/api_invite_links.cpp:162-707 | in every run of such events this holds for every peer |
| InviteLinks.SetPermanentCountsIff | Telegram/SourceFiles/api/api_invite_links.cpp:640-663 | setMyPermanent inserts without counting: the count stays right exactly if there was room or the link was cached |
| InviteLinks.FirstPermanentIsNotCounted | Telegram/SourceFiles/api/api_invite_links.cpp:663-665 | setting a first permanent link leaves one link cached and none counted |
| InviteLinks.TwoPermanentDisagree | Telegram/SourceFiles/api/api_invite_links.cpp:426-451 | a run in which a page with two live permanent links leaves one behind the other |
| InviteLinks.CreatedIsCached | Telegram/SourceFiles/api/api_invite_links.cpp:111-118 | the link that a creation made is cached once more, and in front and stored if it is permanent |
| InviteLinks.EditedIsCached | Telegram/SourceFiles/api/api_invite_links.cpp:279-300 | the answer to an edit takes out or replaces the first link with the string |
| InviteLinks.ReplacementIsCached | Telegram/SourceFiles/api/api_invite_links.cpp:300-319 | a link that takes the place of an edited one of the user's own is cached as if it had been created |
| InviteLinks.ReloadedIsCached | Telegram/SourceFiles/api/api_invite_links.cpp:426-453 | the answer to a reload leaves each link as often as ReloadIs says |
| InviteLinks.OthersAreNotTouched | Telegram/SourceFiles/api/api_invite_links.cpp:143-707 | only an answer for a peer, or an operation on it, changes what is cached of the peer |
| InviteLinks.AskedIsOnNetwork | Telegram/SourceFiles/api/api_invite_links.cpp:76-320 | in every run what a call asks for is then on the network, by one new request if it was not there |
| InviteLinks.CalledOnceIfLinked | Telegram/SourceFiles/api/api_invite_links.cpp:76-118 | in every run a callback is called once, and with that link, if the request that it joined ended with a link or was a deletion that succeeded, and else never |
| InviteLinks.CallbackJoins | Telegram/SourceFiles/api/api_invite_links.cpp:250-265 | a callback that is passed in joins a request, unless the link to be edited is being deleted |
| InviteLinks.JoinedEnd | Telegram/SourceFiles/api/api_invite_links.cpp:76-118 | with nothing on the network every request that a callback joined has ended |
| InviteLinks.AnsweredHaveCallbacks | Telegram/SourceFiles/api/api_invite_links.cpp:279-306 | in every run the callbacks of a request are there when it is answered, so the optional that the edit's handler dereferences is present |
| InviteLinks.EveryRunKeepsRequests | Telegram/SourceFiles/api/api_invite_links.cpp:248-323 | the keys with callbacks are exactly the requests on the network, one each |
| InviteLinks.BringPermanentToFront | Telegram/SourceFiles/api/api_invite_links.cpp:28-36 | the search and the rotation |
| InviteLinks.RemovePermanent | Telegram/SourceFiles/api/api_invite_links.cpp:38-43 | the removing loop |
| InviteLinks.LinksCache.PrependMyToFirstSlice | Telegram/SourceFiles/api/api_invite_links.cpp:162-205 | the in-place form of the prepend |
| InviteLinks.LinksCache.SendOrJoin | Telegram/SourceFiles/api/api_invite_links.cpp:76-92 | one more call for what is on the network joins its callbacks, another sends a request |
| InviteLinks.LinksCache.PerformEdit | Telegram/SourceFiles/api/api_invite_links.cpp:248-279 | an edit sends, joins, or is dropped while a deletion is pending |
| InviteLinks.LinksCache.EditDone | Telegram/SourceFiles/api/api_invite_links.cpp:279-319 | the done handler of an edit, a replacing one included |
| InviteLinks.LinksCache.CreateDone | Telegram/SourceFiles/api/api_invite_links.cpp:111-118 | the done handler of a creation: the link is prepended, then the callbacks are called |
| InviteLinks.LinksCache.DeleteDone | Telegram/SourceFiles/api/api_invite_links.cpp:369-380 | the done handler of a deletion: its callbacks are called |
| InviteLinks.LinksCache.Failed | Telegram/SourceFiles/api/api_invite_links.cpp:320-322 | the fail handlers: the callbacks are dropped |
| InviteLinks.LinksCache.FirstSliceDone | Telegram/SourceFiles/api/api_invite_links.cpp:426-453 | the done handler of a reload |
| InviteLinks.LinksCache.SetPermanent | Telegram/SourceFiles/api/api_invite_links.cpp:620-676 | the in-place form of setMyPermanent |
| InviteLinks.LinksCache.ClearPermanent | Telegram/SourceFiles/api/api_invite_links.cpp:678-707 | the in-place form of clearMyPermanent |
| InviteLinks.LinksCache.ApplyExternalUpdate | Telegram/SourceFiles/api/api_invite_links.cpp:522-531 | every cached link with the string is replaced |
| InviteLinks.LinksCache.ForgetSlice | Telegram/SourceFiles/api/api_invite_links.cpp:488-498 | the slice goes when an unknown link was used |
| MessagesSearch.PagesFollowOneAnother | Telegram/SourceFiles/api/api_messages_search.cpp:89-161 | in every run the request for each page of a search carried as its offset the last message of the page before it, the first one none |
| MessagesSearch.EveryRunKeeps | Telegram/SourceFiles/api/api_messages_search.cpp:89-219 | the present request is on the network for the present token and offset, and the first page of a search is the one in the cache |
| MessagesSearch.SupersededAnswerNeverMatters | Telegram/SourceFiles/api/api_messages_search.cpp:163-169 | once a newer search or page was asked for, two runs that differ only in what the older request is answered, whenever that comes, end alike |
| MessagesSearch.PresentAnswerMatters | Telegram/SourceFiles/api/api_messages_search.cpp:163-169 | two runs that end with different answers to the present request never find the same pages |
| MessagesSearch.FoundIff | Telegram/SourceFiles/api/api_messages_search.cpp:163-219 | an answer finds its page if and only if it is that to the present request, which was for the present token and offset; else nothing is found and the search stays as it was |
| MessagesSearch.FailedIs | Telegram/SourceFiles/api/api_messages_search.cpp:140-152 | what the present request asked for can be asked for again after it has failed; only an empty query fires, for its own token |
| MessagesSearch.SearchBegins | Telegram/SourceFiles/api/api_messages_search.cpp:89-112 | a search finds its first page in the cache, or asks for it |
| MessagesSearch.CachedIff | Telegram/SourceFiles/api/api_messages_search.cpp:102-112 | in every run a page is in the cache if and only if it was there, or is the first that was answered for its token |
| MessagesSearch.NothingHangs | Telegram/SourceFiles/api/api_messages_search.cpp:95-161 | in every run, with nothing on the network, going on asks for the next page or finds the first one once more |
| MessagesSearch.StartsOverIff | Telegram/SourceFiles/api/api_messages_search.cpp:102-112 | going on finds the first page again, from the cache, exactly if the last page was empty |
| MessagesSearch.EmptyPageStartsOver | Telegram/SourceFiles/api/api_messages_search.cpp:102-112 | a run in which the second page is empty and the first is found once more |
| MessagesSearch.Searcher.SearchFor | Telegram/SourceFiles/api/api_messages_search.cpp:89-93 | a new search starts over, from the cache if it can |
| MessagesSearch.Searcher.More | Telegram/SourceFiles/api/api_messages_search.cpp:95-100 | goes on unless a request is under way |
| MessagesSearch.Searcher.SendRequest | Telegram/SourceFiles/api/api_messages_search.cpp:102-161 | from the cache, or over the network |
| MessagesSearch.Searcher.SearchReceived | Telegram/SourceFiles/api/api_messages_search.cpp:163-219 | drops a superseded answer, else caches a first page, moves the offset and fires |
| MessagesSearch.Searcher.ReceiveFail | Telegram/SourceFiles/api/api_messages_search.cpp:140-152 | an empty query fires an empty page, even for a superseded request |
| MessagesSearchMerged.MergedListIs | Telegram/SourceFiles/api/api_messages_search_merged.cpp:14-110 | in every run, from a search with everything cleared and a token, the list is all pages of the history in order, followed once these are complete by all pages of the migrated one; the total counts each first page once, when both are there |
| MessagesSearchMerged.OrderDoesNotMatter | Telegram/SourceFiles/api/api_messages_search_merged.cpp:14-110 | whatever the order in which they arrive, the same pages make the same list and the same total |
| MessagesSearchMerged.MigratedComesAfter | Telegram/SourceFiles/api/api_messages_search_merged.cpp:104-110 | more of the migrated history than its first page is only asked for once the history itself is complete |
| MessagesSearchMerged.EveryRunTracks | Telegram/SourceFiles/api/api_messages_search_merged.cpp:14-110 | every event keeps: the list, its total and the flags are those that the two lists of pages determine, and only the search whose turn it is has a request that is not dropped |
| MessagesSearchMerged.SearchesGoOn | Telegram/SourceFiles/api/api_messages_search_merged.cpp:87-110 | each search goes on by itself: both begin together, and more is asked for of the migrated history exactly if there is one and the list is complete |
| MessagesSearchMerged.ActiveIff | Telegram/SourceFiles/api/api_messages_search_merged.cpp:87-102 | the list is that of the pages from a search for something with everything cleared, up to the next one, a clearing, or a harmful late failure |
| MessagesSearchMerged.LateFailureHarmlessIff | Telegram/SourceFiles/api/api_messages_search_merged.cpp:38-49 | a superseded request that fails for an empty query does no harm exactly if it was for the same token, a page has arrived, and there are messages or the list was complete |
| MessagesSearchMerged.LateMigratedFailureHarmlessIff | Telegram/SourceFiles/api/api_messages_search_merged.cpp:52-63 | the same of the migrated history, exactly if its token is that of the first page found there |
| MessagesSearchMerged.LateFailureSpoilsList | Telegram/SourceFiles/api/api_messages_search.cpp:146-148 | a run in which such a failure empties the list and calls it complete |
| MessagesSearchMerged.MergedSearcher.OnApiFound | Telegram/SourceFiles/api/api_messages_search_merged.cpp:38-49 | the handler of what the history finds |
| MessagesSearchMerged.MergedSearcher.OnMigratedFound | Telegram/SourceFiles/api/api_messages_search_merged.cpp:51-64 | the handler of what the migrated history finds |
| MessagesSearchMerged.MergedSearcher.PushFound | Telegram/SourceFiles/api/api_messages_search_merged.cpp:73-77 | the appending loop |
| MessagesSearchMerged.MergedSearcher.CompareTotal | Telegram/SourceFiles/api/api_messages_search_merged.cpp:31-36 | a page whose total is the number of messages so far completes the list, and the first migrated page is added |
| MessagesSearchMerged.MergedSearcher.AddWaitedTotal | Telegram/SourceFiles/api/api_messages_search_merged.cpp:19-29 | the migrated total is added when both first pages are there, and not again |
| MessagesSearchMerged.MergedSearcher.Search | Telegram/SourceFiles/api/api_messages_search_merged.cpp:94-102 | starts both searches, the migrated one first |
| MessagesSearchMerged.MergedSearcher.SearchFurther | Telegram/SourceFiles/api/api_messages_search_merged.cpp:104-110 | goes on in the migrated history exactly if there is one and the list is complete |
| BlockedPeers.EachCallbackOnce | Telegram/SourceFiles/api/api_blocked_peers.cpp:75-187 | no callback is called twice, and once nothing is on the network each that was passed in has been called, also when callbacks block and unblock peers with callbacks of their own |
| BlockedPeers.EntryIsOnNetwork | Telegram/SourceFiles/api/api_blocked_peers.cpp:75-187 | the entry of a peer always has its own request on the network, though a reversed one does not cancel the earlier |
| BlockedPeers.OwnAnswerIff | Telegram/SourceFiles/api/api_blocked_peers.cpp:116-166 | the callback of an unblock that sends is told, in every continuation in which nothing else blocks or unblocks the peer, exactly what the request of this unblock is answered, if and only if no earlier request for the peer is on the network at the call |
| BlockedPeers.AnswerTells | Telegram/SourceFiles/api/api_blocked_peers.cpp:83-158 | the answer to any request for a peer tells all callbacks in its entry: that the unblocking succeeded for a successful unblock, else that it failed |
| BlockedPeers.ToldAsAnswered | Telegram/SourceFiles/api/api_blocked_peers.cpp:127-156 | while its request is the only one for the peer a callback is told what that is answered, and not before |
| BlockedPeers.OvertakenIsToldWrong | Telegram/SourceFiles/api/api_blocked_peers.cpp:127-156 | if an earlier request for the peer fails first the callback is told so, although its own then succeeds |
| BlockedPeers.ReversedIsToldFalse | Telegram/SourceFiles/api/api_blocked_peers.cpp:168-187 | a run from the start: a block that is answered after an unblock was forced tells the unblock's callback that it failed, and then it succeeds |
| BlockedPeers.TotalCoversList | Telegram/SourceFiles/api/api_blocked_peers.cpp:24-40 | in every run the total is at least the number of those listed |
| BlockedPeers.BlockedIsLatest | Telegram/SourceFiles/api/api_blocked_peers.cpp:83-148 | in every run a peer is blocked if and only if the latest request for it that succeeded, or the latest news, says so |
| BlockedPeers.AnswerChangesList | Telegram/SourceFiles/api/api_blocked_peers.cpp:86-148 | a blocked peer is put in front of the cached list with the date, the first item of an unblocked one goes, and nothing else changes the list |
| BlockedPeers.CallSendsIff | Telegram/SourceFiles/api/api_blocked_peers.cpp:75-166 | a call puts a new request on the network if and only if it goes on and the latest request for the peer is not in its direction; a callback is taken in unless the call does not go on |
| BlockedPeers.SendingMakesEntry | Telegram/SourceFiles/api/api_blocked_peers.cpp:75-187 | a call that sends leaves an entry for its peer, which is its own if there was none |
| BlockedPeers.AnswerTakesEntry | Telegram/SourceFiles/api/api_blocked_peers.cpp:83-158 | an answer of either kind takes out the entry of its peer, which then has one only for a new request |
| BlockedPeers.OneListAtATime | Telegram/SourceFiles/api/api_blocked_peers.cpp:189-226 | a list is asked for unless one is under way, which an answer or a failure ends |
| BlockedPeers.ListGoesWhereAsked | Telegram/SourceFiles/api/api_blocked_peers.cpp:189-226 | a list that has come is cached, or handed to the callback that asked for it, with a total that covers it |
| BlockedPeers.UnlistedStay | Telegram/SourceFiles/api/api_blocked_peers.cpp:88-148 | blocking keeps the number of blocked peers beyond the listed; unblocking does too if the peer was listed, and else lowers it by one down to 0 |
| BlockedPeers.Peers.BlockPeer | Telegram/SourceFiles/api/api_blocked_peers.cpp:75-114 | when a block is sent, joins, or reverses an unblock |
| BlockedPeers.Peers.UnblockPeer | Telegram/SourceFiles/api/api_blocked_peers.cpp:116-166 | when an unblock is sent, joins with its callback, or reverses a block |
| BlockedPeers.Peers.TakeAndCall | Telegram/SourceFiles/api/api_blocked_peers.cpp:168-187 | the entry is taken out and its callbacks called |
| BlockedPeers.Peers.CallAll | Telegram/SourceFiles/api/api_blocked_peers.cpp:94-98 | the callbacks in turn, each of which may block and unblock again |
| BlockedPeers.Peers.EraseFromSlice | Telegram/SourceFiles/api/api_blocked_peers.cpp:133-143 | the first item of the peer is erased and the total lowered if it stays above the list |
| BlockedPeers.Peers.ReceiveDone | Telegram/SourceFiles/api/api_blocked_peers.cpp:83-148 | the done handlers of both directions |
| BlockedPeers.Peers.ReceiveFail | Telegram/SourceFiles/api/api_blocked_peers.cpp:102-158 | the fail handlers of both directions |
| BlockedPeers.Peers.ReceiveList | Telegram/SourceFiles/api/api_blocked_peers.cpp:189-226 | an answered list is cached or handed on, with a total of at least its size |

## Left out

- The transport, serialization, `processUsers`, `processChats`, storage writes, toasts and notifications: only requests, answers and callbacks are modelled.
- 32-bit overflow outside SHA-1 and the hash: counts, dates and stars are mathematical integers.
- Packer.HashSha1: buffers within 64 bytes of 2^32, because the source's block counter wraps there and its loop does not end as written.
- FileReferences: which origins lead to a request is a parameter of the call, and the references themselves are not modelled.
- WebPages: requests to the network have no fail handler in the source, so the pages of a failed request keep waiting for it, here as there. Of a page only what the resolver reads is modelled: how long it is pending, whether it failed, and whether it has an address.
- Dialogs: the main list is folder 0 although the source keeps its state in a field of its own; what applying the dialogs does to the chats is not modelled.
- StickerSets: one object stands for one type of sets; the requests that clear the recent stickers of the cloud and the flags for writing to storage are not modelled. The flag set in the branch of the removal loop for archived sets is dead code there.
- Forwarding: the fork's own ways of forwarding that return early, the flags of a request, and the text of local messages.
- Albums: captions, which move to the next item when the first is removed; the album object that the loading of its files shares is a value in the registry. Whether a destroyed message was being sent is left to the environment.
- InviteLinks: the four maps of pending requests are one map keyed by what a request is for; the slices of joined users, deleting all revoked links, the stream of updates and what callbacks do when they are called are not modelled.
- MessagesSearch: a request is its token, so the top message id and the way a token is put together are not modelled; the request to the history starts at once; which messages of a page are taken is given; the "not modified" answer, which a zero hash does not allow, is not modelled.
- MessagesSearchMerged: disableMigrated, and what a search does that is started without clearing.
- BlockedPeers: the stream of changes to the list. What a callback does when it is called is a finite list of calls that comes with it, and their callbacks come with theirs.
- sendExistingAlbum, sendMessage and its text cutter, migrateChat, the cloud password, credits, polls and all window code: thin wrappers, foreign code, or no clean claim.
- RSA, LZMA and the files of the packer: foreign calls and file-system work.
