// The albums that ApiWrap keeps while their files are prepared, uploaded,
// cancelled and sent: sendAlbumWithUploaded, sendAlbumWithCancelled,
// sendAlbumIfReady and sendMultiPaidMedia, under any interleaving.
module Albums {
  import opened FlatMap

  type GroupId = nat
  type TaskId = nat
  type MsgId = nat

  datatype Media = NoMedia | Media(media: nat, randomId: nat)

  /** An item of an album: the id of its loading, then its local message (0 before), then its uploaded media. */
  datatype Item = Item(taskId: TaskId, msgId: MsgId, media: Media)

  datatype SendingAlbum = SendingAlbum(items: seq<Item>, sent: bool, price: nat, starsApproved: nat)

  datatype Kind = Single | Multi | Paid

  /** A request that sends an album. */
  datatype Sent = Sent(group: GroupId, kind: Kind, medias: seq<Media>, starsPaid: nat)

  /**
   * The registry, the messages that exist and the files under way.  `original`,
   * `removed` and `uploaded` record what has happened, and `stalled` the albums
   * that were left complete by a file that could not be prepared.
   */
  datatype State = State(
    albums: map<GroupId, SendingAlbum>,
    live: set<MsgId>,
    preparing: set<TaskId>,
    uploading: set<MsgId>,
    groupOf: map<MsgId, GroupId>,
    taskGroup: map<TaskId, GroupId>,
    nextId: nat,
    inFlight: map<nat, Sent>,
    log: seq<Sent>,
    original: map<GroupId, seq<TaskId>>,
    removed: set<TaskId>,
    uploaded: map<TaskId, Media>,
    stalled: set<GroupId>)

  const INITIAL := State(map[], {}, {}, {}, map[], map[], 1, map[], [], map[], {}, map[], {})

  function Min(a: nat, b: nat): nat {
    if a < b then a else b
  }

  // ---- The operations, as functions ----

  function Tasks(items: seq<Item>): seq<TaskId> {
    seq(|items|, i requires 0 <= i < |items| => items[i].taskId)
  }

  function Medias(items: seq<Item>): seq<Media> {
    seq(|items|, i requires 0 <= i < |items| => items[i].media)
  }

  predicate AllReady(items: seq<Item>) {
    forall i :: 0 <= i < |items| ==> items[i].media != NoMedia
  }

  predicate SomeLive(items: seq<Item>, live: set<MsgId>) {
    exists i :: 0 <= i < |items| && items[i].msgId in live
  }

  /** Where the item of a message, or of a task, is; the length if there is none. */
  function FindMessage(items: seq<Item>, msgId: MsgId): (at: nat)
    ensures at <= |items|
    ensures at < |items| ==> items[at].msgId == msgId
    ensures forall i :: 0 <= i < at ==> items[i].msgId != msgId
  {
    if items == [] then 0 else if items[0].msgId == msgId then 0 else 1 + FindMessage(items[1..], msgId)
  }

  function FindTask(items: seq<Item>, taskId: TaskId): (at: nat)
    ensures at <= |items|
    ensures at < |items| ==> items[at].taskId == taskId
    ensures forall i :: 0 <= i < at ==> items[i].taskId != taskId
  {
    if items == [] then 0 else if items[0].taskId == taskId then 0 else 1 + FindTask(items[1..], taskId)
  }

  function Erase(items: seq<Item>, at: nat): seq<Item>
    requires at < |items|
  {
    items[..at] + items[at + 1..]
  }

  /** The kind of request that sends an album, and what it pays. */
  function RequestFor(group: GroupId, album: SendingAlbum, starsPerMessage: nat): Sent {
    var kind := if album.price > 0 then Paid else if |album.items| < 2 then Single else Multi;
    var cost := if kind == Multi then starsPerMessage * |album.items| else starsPerMessage;
    Sent(group, kind, Medias(album.items), Min(cost, album.starsApproved))
  }

  function SendIfReady(state: State, group: GroupId, starsPerMessage: nat): State
    requires group in state.albums
  {
    var s, album := state.(stalled := state.stalled - {group}), state.albums[group];
    if album.sent then s
    else if album.items == [] then s.(albums := s.albums - {group})
    else if !AllReady(album.items) then s
    else if !SomeLive(album.items, s.live) then s.(albums := s.albums - {group})
    else
      var request := RequestFor(group, album, starsPerMessage);
      var sent := s.(log := s.log + [request], nextId := s.nextId + 1, inFlight := s.inFlight[s.nextId := request]);
      if request.kind == Single then sent.(albums := s.albums - {group})
      else
        sent.(albums := s.albums[group :=
          album.(sent := true, starsApproved := album.starsApproved - request.starsPaid)])
  }

  function NewTasks(group: GroupId, count: nat): seq<TaskId> {
    seq(count, i requires 0 <= i < count => group + 1 + i)
  }

  function NewItems(group: GroupId, count: nat): seq<Item> {
    seq(count, i requires 0 <= i < count => Item(group + 1 + i, 0, NoMedia))
  }

  /** sendFiles with an album of so many files. */
  function NewAlbum(s: State, count: nat, price: nat, approved: nat): State {
    s.(albums := s.albums[s.nextId := SendingAlbum(NewItems(s.nextId, count), false, price, approved)],
       original := s.original[s.nextId := NewTasks(s.nextId, count)],
       taskGroup := s.taskGroup + TasksOf(s.nextId, count),
       preparing := s.preparing + TasksOf(s.nextId, count).Keys,
       stalled := if count == 0 then s.stalled + {s.nextId} else s.stalled,
       nextId := s.nextId + 1 + count)
  }

  /** The tasks of a new album are numbered on from its id. */
  function TasksOf(group: GroupId, count: nat): (tasks: map<TaskId, GroupId>)
    ensures forall t :: t in tasks <==> group < t <= group + count
    ensures forall t :: t in tasks ==> tasks[t] == group
  {
    if count == 0 then map[] else TasksOf(group, count - 1)[group + count := group]
  }

  /** A file is prepared: the item at its place gets a local message, whose upload starts. */
  function Confirmed(s: State, group: GroupId, at: nat): State
    requires group in s.albums && at < |s.albums[group].items|
  {
    var album := s.albums[group];
    s.(preparing := s.preparing - {album.items[at].taskId},
       albums := s.albums[group := album.(items := album.items[at := album.items[at].(msgId := s.nextId)])],
       live := s.live + {s.nextId},
       uploading := s.uploading + {s.nextId},
       groupOf := s.groupOf[s.nextId := group],
       nextId := s.nextId + 1)
  }

  /** The item at a place of an album is erased, with its message and its file. */
  function Erased(s: State, group: GroupId, at: nat): State
    requires group in s.albums && at < |s.albums[group].items|
  {
    var album := s.albums[group];
    s.(albums := s.albums[group := album.(items := Erase(album.items, at))],
       live := s.live - {album.items[at].msgId},
       preparing := s.preparing - {album.items[at].taskId},
       removed := s.removed + {album.items[at].taskId})
  }

  /** The message's media is uploaded, up to sendAlbumIfReady. */
  function Filled(s: State, msgId: MsgId, media: nat): State
    requires msgId in s.groupOf && s.groupOf[msgId] in s.albums
    requires FindMessage(s.albums[s.groupOf[msgId]].items, msgId) < |s.albums[s.groupOf[msgId]].items|
  {
    var group := s.groupOf[msgId];
    var album := s.albums[group];
    var at := FindMessage(album.items, msgId);
    var filled := Media(media, s.nextId);
    s.(albums := s.albums[group := album.(items := album.items[at := album.items[at].(media := filled)])],
       uploading := s.uploading - {msgId},
       uploaded := s.uploaded[album.items[at].taskId := filled],
       nextId := s.nextId + 1)
  }

  function Messages(items: seq<Item>): set<MsgId> {
    set item | item in items :: item.msgId
  }

  /** The handler of a request that succeeded. */
  function SendDone(s: State, id: nat): State
    requires id in s.inFlight
  {
    var sent := s.inFlight[id];
    var rest := s.(inFlight := s.inFlight - {id});
    if sent.kind == Single || sent.group !in s.albums then rest
    else
      rest.(albums := s.albums - {sent.group},
            live := if sent.kind == Paid then s.live - Messages(s.albums[sent.group].items) else s.live)
  }

  /** The handler of a request that failed: a paid album stays in the registry. */
  function SendFail(s: State, id: nat): State
    requires id in s.inFlight
  {
    var sent := s.inFlight[id];
    s.(inFlight := s.inFlight - {id}, albums := if sent.kind == Multi then s.albums - {sent.group} else s.albums)
  }

  /**
   * Whether the album of a message, or of a file, is registered with an item for it: the
   * lookups that the source asserts.
   */
  predicate HasMessage(s: State, msgId: MsgId) {
    && msgId in s.groupOf && s.groupOf[msgId] in s.albums
    && FindMessage(s.albums[s.groupOf[msgId]].items, msgId) < |s.albums[s.groupOf[msgId]].items|
  }

  predicate HasTask(s: State, taskId: TaskId) {
    && taskId in s.taskGroup && s.taskGroup[taskId] in s.albums
    && FindTask(s.albums[s.taskGroup[taskId]].items, taskId) < |s.albums[s.taskGroup[taskId]].items|
  }

  function Confirm(s: State, taskId: TaskId): State
    requires HasTask(s, taskId)
  {
    Confirmed(s, s.taskGroup[taskId], FindTask(s.albums[s.taskGroup[taskId]].items, taskId))
  }

  /** A file cannot be prepared: its item leaves the album, which is not looked at again for now. */
  function RemoveFromAlbum(s: State, taskId: TaskId): State
    requires HasTask(s, taskId)
  {
    var group := s.taskGroup[taskId];
    var erased := Erased(s, group, FindTask(s.albums[group].items, taskId));
    erased.(stalled := if AllReady(erased.albums[group].items) then s.stalled + {group} else s.stalled)
  }

  /** The answer of an upload; the message may be gone. */
  function UploadDone(s: State, msgId: MsgId, media: nat, starsPerMessage: nat): State
    requires msgId in s.live ==> HasMessage(s, msgId)
  {
    if msgId !in s.live then s.(uploading := s.uploading - {msgId})
    else SendIfReady(Filled(s, msgId, media), s.groupOf[msgId], starsPerMessage)
  }

  /** sendAlbumWithCancelled. */
  function Cancelled(s: State, msgId: MsgId, starsPerMessage: nat): State
    requires msgId in s.groupOf && (s.groupOf[msgId] in s.albums ==> HasMessage(s, msgId))
  {
    var group := s.groupOf[msgId];
    if group !in s.albums then s.(live := s.live - {msgId})
    else SendIfReady(Erased(s, group, FindMessage(s.albums[group].items, msgId)), group, starsPerMessage)
  }

  // ---- What every step keeps ----

  /** An item has a task and perhaps a message of its own album, and media only once it has a message. */
  ghost predicate ItemKnown(item: Item, group: GroupId, groupOf: map<MsgId, GroupId>, taskGroup: map<TaskId, GroupId>) {
    && item.taskId in taskGroup && taskGroup[item.taskId] == group
    && (item.msgId != 0 ==> item.msgId in groupOf && groupOf[item.msgId] == group)
    && (item.msgId == 0 ==> item.media == NoMedia)
  }

  ghost predicate ItemsKnown(items: seq<Item>, group: GroupId, groupOf: map<MsgId, GroupId>,
      taskGroup: map<TaskId, GroupId>) {
    forall i :: 0 <= i < |items| ==> ItemKnown(items[i], group, groupOf, taskGroup)
  }

  ghost predicate Distinct(items: seq<Item>) {
    forall i, j :: 0 <= i < j < |items| ==>
      items[i].taskId != items[j].taskId && (items[i].msgId != 0 ==> items[i].msgId != items[j].msgId)
  }

  /** The tasks that have not been removed, in order. */
  function Left(tasks: seq<TaskId>, removed: set<TaskId>): seq<TaskId> {
    if tasks == [] then []
    else if tasks[0] in removed then Left(tasks[1..], removed)
    else [tasks[0]] + Left(tasks[1..], removed)
  }

  function UploadedFor(task: TaskId, uploaded: map<TaskId, Media>): Media {
    if task in uploaded then uploaded[task] else NoMedia
  }

  /** An album holds what is left of its files, in their order, each with what was uploaded for it. */
  ghost predicate Recorded(items: seq<Item>, tasks: seq<TaskId>, removed: set<TaskId>, uploaded: map<TaskId, Media>) {
    && Tasks(items) == Left(tasks, removed)
    && forall i :: 0 <= i < |items| ==> items[i].media == UploadedFor(items[i].taskId, uploaded)
  }

  ghost predicate TasksAre(tasks: seq<TaskId>, group: GroupId, taskGroup: map<TaskId, GroupId>) {
    && (forall i :: 0 <= i < |tasks| ==> tasks[i] in taskGroup && taskGroup[tasks[i]] == group)
    && NoRepeats(tasks)
  }

  ghost predicate NoRepeats(tasks: seq<TaskId>) {
    forall i, j :: 0 <= i < j < |tasks| ==> tasks[i] != tasks[j]
  }

  ghost predicate AlbumOk(s: State, group: GroupId, album: SendingAlbum) {
    && group < s.nextId
    && ItemsKnown(album.items, group, s.groupOf, s.taskGroup)
    && Distinct(album.items)
    && (album.sent ==> AllReady(album.items))
    && group in s.original && TasksAre(s.original[group], group, s.taskGroup)
    && Recorded(album.items, s.original[group], s.removed, s.uploaded)
  }

  ghost predicate AlbumsOk(s: State) {
    forall g :: g in s.albums ==> AlbumOk(s, g, s.albums[g])
  }

  ghost predicate Numbered(s: State) {
    && 0 < s.nextId
    && (forall m :: m in s.groupOf ==> 0 < m < s.nextId && s.groupOf[m] < s.nextId)
    && (forall t :: t in s.taskGroup ==> t < s.nextId && s.taskGroup[t] < s.nextId)
    && (forall id :: id in s.inFlight ==> id < s.nextId)
    && (forall t :: t in s.removed ==> t < s.nextId)
    && (forall t :: t in s.uploaded ==> t < s.nextId)
  }

  /** A message that exists is in its album for as long as that is registered. */
  ghost predicate Listed(album: SendingAlbum, msgId: MsgId) {
    FindMessage(album.items, msgId) < |album.items|
  }

  ghost predicate LiveListed(albums: map<GroupId, SendingAlbum>, live: set<MsgId>, groupOf: map<MsgId, GroupId>) {
    forall m :: m in live ==> m in groupOf && (groupOf[m] in albums ==> Listed(albums[groupOf[m]], m))
  }

  /** A message whose upload is not finished belongs to a registered album that was not sent, and has no media there. */
  ghost predicate Waits(album: SendingAlbum, msgId: MsgId) {
    && !album.sent
    && FindMessage(album.items, msgId) < |album.items|
    && album.items[FindMessage(album.items, msgId)].media == NoMedia
  }

  ghost predicate UploadsWait(albums: map<GroupId, SendingAlbum>, live: set<MsgId>, uploading: set<MsgId>,
      groupOf: map<MsgId, GroupId>) {
    forall m :: m in live && m in uploading ==> m in groupOf && groupOf[m] in albums && Waits(albums[groupOf[m]], m)
  }

  /** The same of a file that is not prepared yet. */
  ghost predicate TaskWaits(album: SendingAlbum, taskId: TaskId) {
    && !album.sent
    && FindTask(album.items, taskId) < |album.items|
    && album.items[FindTask(album.items, taskId)].msgId == 0
  }

  ghost predicate TasksWait(albums: map<GroupId, SendingAlbum>, preparing: set<TaskId>,
      taskGroup: map<TaskId, GroupId>) {
    forall t :: t in preparing ==> t in taskGroup && taskGroup[t] in albums && TaskWaits(albums[taskGroup[t]], t)
  }

  function Sends(log: seq<Sent>, group: GroupId): nat {
    if log == [] then 0
    else Sends(log[..|log| - 1], group) + if log[|log| - 1].group == group then 1 else 0
  }

  /** No album is sent twice, and a registered one is marked exactly when it was sent. */
  ghost predicate SentOnce(albums: map<GroupId, SendingAlbum>, log: seq<Sent>, nextId: nat) {
    && (forall g: GroupId :: Sends(log, g) <= 1)
    && (forall g: GroupId :: g >= nextId ==> Sends(log, g) == 0)
    && (forall g :: g in albums ==> Sends(log, g) == if albums[g].sent then 1 else 0)
  }

  ghost predicate NetworkWasSent(inFlight: map<nat, Sent>, log: seq<Sent>) {
    forall id :: id in inFlight ==> Sends(log, inFlight[id].group) > 0
  }

  predicate Complete(album: SendingAlbum) {
    !album.sent && AllReady(album.items)
  }

  /** The albums that are complete and not sent are those that stalled. */
  ghost predicate StalledAre(albums: map<GroupId, SendingAlbum>, stalled: set<GroupId>) {
    forall g: GroupId :: g in stalled <==> g in albums && Complete(albums[g])
  }

  ghost predicate StalledAreBut(albums: map<GroupId, SendingAlbum>, stalled: set<GroupId>, group: GroupId) {
    forall g: GroupId :: g != group ==> (g in stalled <==> g in albums && Complete(albums[g]))
  }

  ghost predicate Core(s: State) {
    && Numbered(s)
    && AlbumsOk(s)
    && LiveListed(s.albums, s.live, s.groupOf)
    && UploadsWait(s.albums, s.live, s.uploading, s.groupOf)
    && TasksWait(s.albums, s.preparing, s.taskGroup)
    && SentOnce(s.albums, s.log, s.nextId)
    && NetworkWasSent(s.inFlight, s.log)
  }

  ghost predicate Inv(s: State) {
    Core(s) && StalledAre(s.albums, s.stalled)
  }

  // ---- sendAlbumIfReady ----

  lemma SendsAppend(log: seq<Sent>, sent: Sent, group: GroupId)
    ensures Sends(log + [sent], group) == Sends(log, group) + if sent.group == group then 1 else 0
  {
    assert (log + [sent])[..|log|] == log;
  }

  /** Forgetting an album that no unfinished file needs. */
  ghost predicate Forgettable(s: State, group: GroupId) {
    && (forall m :: m in s.live && m in s.uploading && m in s.groupOf ==> s.groupOf[m] != group)
    && (forall t :: t in s.preparing && t in s.taskGroup ==> s.taskGroup[t] != group)
  }

  lemma UnfinishedUploadIsMissing(s: State, msgId: MsgId)
    requires Core(s) && msgId in s.live && msgId in s.uploading && msgId in s.groupOf && s.groupOf[msgId] in s.albums
    ensures !AllReady(s.albums[s.groupOf[msgId]].items)
  {
    hide SentOnce, Numbered, LiveListed, AlbumsOk, TasksWait;
  }

  lemma UnpreparedFileIsMissing(s: State, taskId: TaskId)
    requires Core(s) && taskId in s.preparing && taskId in s.taskGroup && s.taskGroup[taskId] in s.albums
    ensures !AllReady(s.albums[s.taskGroup[taskId]].items)
  {
    hide SentOnce, Numbered, LiveListed, UploadsWait;
    var group := s.taskGroup[taskId];
    var items := s.albums[group].items;
    assert TaskWaits(s.albums[group], taskId) && AlbumOk(s, group, s.albums[group]);
    assert ItemKnown(items[FindTask(items, taskId)], group, s.groupOf, s.taskGroup);
  }

  lemma CompleteIsForgettable(s: State, group: GroupId)
    requires Core(s) && group in s.albums && AllReady(s.albums[group].items)
    ensures Forgettable(s, group)
  {
    hide Core, AllReady;
    forall m | m in s.live && m in s.uploading && m in s.groupOf ensures s.groupOf[m] != group {
      if s.groupOf[m] == group { UnfinishedUploadIsMissing(s, m); }
    }
    forall t | t in s.preparing && t in s.taskGroup ensures s.taskGroup[t] != group {
      if s.taskGroup[t] == group { UnpreparedFileIsMissing(s, t); }
    }
  }

  function Forgotten(s: State, group: GroupId): State {
    s.(albums := s.albums - {group})
  }

  /** What the albums that are left are like does not depend on anything else that changes. */
  lemma AlbumsOkStill(s: State, s': State)
    requires AlbumsOk(s)
    requires forall g :: g in s'.albums ==> g in s.albums && s'.albums[g] == s.albums[g]
    requires s'.groupOf == s.groupOf && s'.taskGroup == s.taskGroup && s'.nextId == s.nextId
    requires s'.original == s.original && s'.removed == s.removed && s'.uploaded == s.uploaded
    ensures AlbumsOk(s')
  {
    hide ItemsKnown, Distinct, Recorded, TasksAre, AllReady;
    assert forall g :: g in s'.albums ==> AlbumOk(s, g, s.albums[g]) && AlbumOk(s', g, s'.albums[g]);
  }

  lemma ForgettingKeeps(s: State, group: GroupId)
    requires Core(s) && Forgettable(s, group)
    ensures Core(Forgotten(s, group))
  {
    hide AlbumsOk, Listed, Waits, TaskWaits, Sends;
    AlbumsOkStill(s, Forgotten(s, group));
  }

  /** Sending: the request goes out and the album is marked. */
  function Marked(s: State, group: GroupId, request: Sent): State
    requires group in s.albums
  {
    var album := s.albums[group];
    s.(log := s.log + [request],
       nextId := s.nextId + 1,
       inFlight := s.inFlight[s.nextId := request],
       albums := s.albums[group := album.(sent := true,
         starsApproved := album.starsApproved - Min(request.starsPaid, album.starsApproved))])
  }

  lemma MarkingKeepsAlbums(s: State, group: GroupId, request: Sent)
    requires Numbered(s) && AlbumsOk(s) && group in s.albums && AllReady(s.albums[group].items)
    ensures Numbered(Marked(s, group, request)) && AlbumsOk(Marked(s, group, request))
  {
    hide Distinct, ItemsKnown, TasksAre, Recorded, AllReady;
    var s' := Marked(s, group, request);
    assert forall g :: g in s'.albums ==> AlbumOk(s, g, s.albums[g]) && AlbumOk(s', g, s'.albums[g]);
  }

  lemma MarkingSendsOnce(s: State, group: GroupId, request: Sent)
    requires SentOnce(s.albums, s.log, s.nextId) && group in s.albums && !s.albums[group].sent
      && request.group == group < s.nextId
    requires NetworkWasSent(s.inFlight, s.log)
    ensures var s' := Marked(s, group, request);
      SentOnce(s'.albums, s'.log, s'.nextId) && NetworkWasSent(s'.inFlight, s'.log)
  {
    var s' := Marked(s, group, request);
    forall g: GroupId ensures Sends(s'.log, g) == Sends(s.log, g) + if g == group then 1 else 0 {
      SendsAppend(s.log, request, g);
    }
    hide Sends;
  }

  lemma MarkingKeepsWaiting(
    albums: map<GroupId, SendingAlbum>, live: set<MsgId>, uploading: set<MsgId>, groupOf: map<MsgId, GroupId>,
    group: GroupId, album: SendingAlbum)
    requires LiveListed(albums, live, groupOf) && UploadsWait(albums, live, uploading, groupOf)
    requires group in albums && album.items == albums[group].items
    requires forall m :: m in live && m in uploading && m in groupOf ==> groupOf[m] != group
    ensures LiveListed(albums[group := album], live, groupOf)
      && UploadsWait(albums[group := album], live, uploading, groupOf)
  {
    assert forall m :: Listed(album, m) == Listed(albums[group], m);
    hide Listed, Waits;
  }

  lemma MarkingKeepsTasks(albums: map<GroupId, SendingAlbum>, preparing: set<TaskId>, taskGroup: map<TaskId, GroupId>,
      group: GroupId, album: SendingAlbum)
    requires TasksWait(albums, preparing, taskGroup)
    requires forall t :: t in preparing && t in taskGroup ==> taskGroup[t] != group
    ensures TasksWait(albums[group := album], preparing, taskGroup)
  {
    hide TaskWaits;
  }

  lemma RegisteredIsNumbered(s: State, group: GroupId)
    requires AlbumsOk(s) && group in s.albums
    ensures group < s.nextId
  {
    assert AlbumOk(s, group, s.albums[group]);
  }

  lemma MarkingKeeps(s: State, group: GroupId, request: Sent)
    requires Core(s) && group in s.albums && Complete(s.albums[group]) && request.group == group
    ensures Core(Marked(s, group, request))
  {
    hide AllReady, SentOnce, NetworkWasSent, Numbered, AlbumsOk, LiveListed, UploadsWait, TasksWait;
    var s' := Marked(s, group, request);
    RegisteredIsNumbered(s, group);
    CompleteIsForgettable(s, group);
    MarkingKeepsAlbums(s, group, request);
    MarkingSendsOnce(s, group, request);
    MarkingKeepsWaiting(s.albums, s.live, s.uploading, s.groupOf, group, s'.albums[group]);
    MarkingKeepsTasks(s.albums, s.preparing, s.taskGroup, group, s'.albums[group]);
  }

  lemma RequestIsFor(group: GroupId, album: SendingAlbum, starsPerMessage: nat)
    ensures var request := RequestFor(group, album, starsPerMessage);
      request.group == group && request.starsPaid <= album.starsApproved && request.medias == Medias(album.items)
  {
  }

  lemma SendIfReadyIs(s: State, group: GroupId, starsPerMessage: nat)
    requires group in s.albums
    ensures var looked, album, s' := s.(stalled := s.stalled - {group}), s.albums[group],
      SendIfReady(s, group, starsPerMessage);
      || (s' == looked && (album.sent || !AllReady(album.items)))
      || (s' == Forgotten(looked, group) && Complete(album))
      || (s' == Marked(looked, group, RequestFor(group, album, starsPerMessage)) && Complete(album))
      || (s' == Forgotten(Marked(looked, group, RequestFor(group, album, starsPerMessage)), group) && Complete(album))
  {
    RequestIsFor(group, s.albums[group], starsPerMessage);
    hide RequestFor, SomeLive;
    assert s.albums[group].items == [] ==> AllReady(s.albums[group].items);
    hide AllReady;
  }

  lemma StalledIsIrrelevant(s: State, stalled: set<GroupId>)
    requires Core(s)
    ensures Core(s.(stalled := stalled))
  {
    hide AlbumsOk;
    AlbumsOkStill(s, s.(stalled := stalled));
  }

  lemma SendIfReadyKeeps(s: State, group: GroupId, starsPerMessage: nat)
    requires Core(s) && group in s.albums && StalledAreBut(s.albums, s.stalled, group)
    ensures Inv(SendIfReady(s, group, starsPerMessage))
  {
    hide Core, AllReady, Min;
    var looked, album := s.(stalled := s.stalled - {group}), s.albums[group];
    var request := RequestFor(group, album, starsPerMessage);
    StalledIsIrrelevant(s, looked.stalled);
    SendIfReadyIs(s, group, starsPerMessage);
    hide SendIfReady;
    if Complete(album) {
      CompleteIsForgettable(looked, group);
      ForgettingKeeps(looked, group);
      MarkingKeeps(looked, group, request);
      CompleteIsForgettable(Marked(looked, group, request), group);
      ForgettingKeeps(Marked(looked, group, request), group);
    }
  }

  // ---- An upload is finished ----

  lemma FillingKeepsAlbum(s: State, msgId: MsgId, media: nat)
    requires Core(s) && msgId in s.groupOf && s.groupOf[msgId] in s.albums && Waits(s.albums[s.groupOf[msgId]], msgId)
    ensures var s' := Filled(s, msgId, media); AlbumOk(s', s.groupOf[msgId], s'.albums[s.groupOf[msgId]])
  {
    var group := s.groupOf[msgId];
    assert AlbumOk(s, group, s.albums[group]);
    var items := s.albums[group].items;
    var at := FindMessage(items, msgId);
    var s' := Filled(s, msgId, media);
    var items' := s'.albums[group].items;
    assert msgId != 0;
    hide LiveListed, UploadsWait, TasksWait, SentOnce, TasksAre, AlbumsOk, Numbered, Left;
    assert ItemsKnown(items', group, s'.groupOf, s'.taskGroup);
    assert Distinct(items');
    assert Tasks(items') == Tasks(items);
    assert Recorded(items', s'.original[group], s'.removed, s'.uploaded);
  }

  /** Nothing changes for an album when media is uploaded, or a file removed, that is of another album. */
  lemma OtherAlbumKeeps(s: State, s': State, group: GroupId, album: SendingAlbum, task: TaskId)
    requires AlbumOk(s, group, album)
    requires s'.taskGroup == s.taskGroup && task in s.taskGroup && s.taskGroup[task] != group
    requires s.nextId <= s'.nextId && s'.original == s.original
    requires forall m :: m in s.groupOf ==> m in s'.groupOf && s'.groupOf[m] == s.groupOf[m]
    requires s'.uploaded == s.uploaded || (task in s'.uploaded && s'.uploaded == s.uploaded[task := s'.uploaded[task]])
    requires s'.removed == s.removed || s'.removed == s.removed + {task}
    ensures AlbumOk(s', group, album)
  {
    var items, tasks := album.items, s.original[group];
    assert TasksAre(tasks, group, s.taskGroup);
    assert task !in tasks;
    LeftIgnores(tasks, s.removed, task);
    hide Distinct, AllReady, TasksAre, Left;
    assert forall i :: 0 <= i < |items| ==> ItemKnown(items[i], group, s.groupOf, s.taskGroup);
    assert forall i :: 0 <= i < |items| ==>
      UploadedFor(items[i].taskId, s'.uploaded) == UploadedFor(items[i].taskId, s.uploaded);
    assert Recorded(items, tasks, s'.removed, s'.uploaded);
    assert ItemsKnown(items, group, s'.groupOf, s'.taskGroup);
  }

  lemma {:induction false} LeftIgnores(tasks: seq<TaskId>, removed: set<TaskId>, task: TaskId)
    requires task !in tasks
    ensures Left(tasks, removed + {task}) == Left(tasks, removed)
  {
    if tasks != [] {
      LeftIgnores(tasks[1..], removed, task);
    }
  }

  lemma FillingKeepsAlbums(s: State, msgId: MsgId, media: nat)
    requires Core(s) && msgId in s.groupOf && s.groupOf[msgId] in s.albums && Waits(s.albums[s.groupOf[msgId]], msgId)
    ensures AlbumsOk(Filled(s, msgId, media)) && Numbered(Filled(s, msgId, media))
  {
    var group := s.groupOf[msgId];
    var s' := Filled(s, msgId, media);
    FillingKeepsAlbum(s, msgId, media);
    var item := s.albums[group].items[FindMessage(s.albums[group].items, msgId)];
    assert AlbumOk(s, group, s.albums[group]) && ItemKnown(item, group, s.groupOf, s.taskGroup);
    assert s'.uploaded == s.uploaded[item.taskId := s'.uploaded[item.taskId]];
    hide AlbumOk, LiveListed, UploadsWait, TasksWait, SentOnce, FindMessage;
    forall g | g in s'.albums ensures AlbumOk(s', g, s'.albums[g]) {
      if g != group {
        assert s'.albums[g] == s.albums[g] && AlbumOk(s, g, s.albums[g]);
        OtherAlbumKeeps(s, s', g, s.albums[g], item.taskId);
      }
    }
  }

  /** The same files and messages in the same places. */
  ghost predicate SamePlaces(a: seq<Item>, b: seq<Item>) {
    |a| == |b| && forall i :: 0 <= i < |a| ==> a[i].taskId == b[i].taskId && a[i].msgId == b[i].msgId
  }

  lemma SamePlacesFind(a: seq<Item>, b: seq<Item>, msgId: MsgId, taskId: TaskId)
    requires SamePlaces(a, b)
    ensures FindMessage(a, msgId) == FindMessage(b, msgId) && FindTask(a, taskId) == FindTask(b, taskId)
  {
  }

  lemma SamePlacesKeepListed(albums: map<GroupId, SendingAlbum>, live: set<MsgId>, groupOf: map<MsgId, GroupId>,
      group: GroupId, album: SendingAlbum)
    requires LiveListed(albums, live, groupOf) && group in albums && SamePlaces(albums[group].items, album.items)
    ensures LiveListed(albums[group := album], live, groupOf)
  {
    hide FindMessage;
    forall m ensures Listed(albums[group], m) == Listed(album, m) {
      SamePlacesFind(albums[group].items, album.items, m, 0);
    }
  }

  lemma FillingKeepsUploads(s: State, msgId: MsgId, media: nat)
    requires Core(s) && msgId in s.groupOf && s.groupOf[msgId] in s.albums && Waits(s.albums[s.groupOf[msgId]], msgId)
    ensures var s' := Filled(s, msgId, media); UploadsWait(s'.albums, s'.live, s'.uploading, s'.groupOf)
  {
    var group, s' := s.groupOf[msgId], Filled(s, msgId, media);
    var items, items' := s.albums[group].items, s'.albums[group].items;
    hide LiveListed, TasksWait, SentOnce, AlbumsOk, Numbered;
    forall m | m != msgId ensures Waits(s.albums[group], m) ==> Waits(s'.albums[group], m) {
      SamePlacesFind(items, items', m, 0);
    }
    hide Waits;
  }

  lemma SamePlacesKeepTasks(albums: map<GroupId, SendingAlbum>, preparing: set<TaskId>,
      taskGroup: map<TaskId, GroupId>, group: GroupId, album: SendingAlbum)
    requires TasksWait(albums, preparing, taskGroup) && group in albums
    requires SamePlaces(albums[group].items, album.items) && album.sent == albums[group].sent
    ensures TasksWait(albums[group := album], preparing, taskGroup)
  {
    forall t ensures TaskWaits(albums[group], t) == TaskWaits(album, t) {
      SamePlacesFind(albums[group].items, album.items, 0, t);
    }
    hide TaskWaits;
  }

  lemma SentOnceKeeps(albums: map<GroupId, SendingAlbum>, log: seq<Sent>, nextId: nat, nextId': nat, group: GroupId,
      album: SendingAlbum)
    requires SentOnce(albums, log, nextId) && group in albums && albums[group].sent == album.sent && nextId <= nextId'
    ensures SentOnce(albums[group := album], log, nextId')
  {
    hide Sends;
  }

  lemma FillingKeeps(s: State, msgId: MsgId, media: nat)
    requires Core(s) && msgId in s.groupOf && s.groupOf[msgId] in s.albums && Waits(s.albums[s.groupOf[msgId]], msgId)
    ensures Core(Filled(s, msgId, media))
  {
    hide AlbumsOk, Numbered, SentOnce, LiveListed, UploadsWait, TasksWait;
    var group, s' := s.groupOf[msgId], Filled(s, msgId, media);
    FillingKeepsAlbums(s, msgId, media);
    FillingKeepsUploads(s, msgId, media);
    SamePlacesKeepListed(s.albums, s.live, s.groupOf, group, s'.albums[group]);
    SamePlacesKeepTasks(s.albums, s.preparing, s.taskGroup, group, s'.albums[group]);
    SentOnceKeeps(s.albums, s.log, s.nextId, s'.nextId, group, s'.albums[group]);
  }

  // ---- An item leaves its album ----

  lemma {:induction false} LeftErase(tasks: seq<TaskId>, removed: set<TaskId>, at: nat)
    requires NoRepeats(tasks) && at < |Left(tasks, removed)|
    ensures Left(tasks, removed)[at] in tasks
    ensures Left(tasks, removed + {Left(tasks, removed)[at]})
      == Left(tasks, removed)[..at] + Left(tasks, removed)[at + 1..]
  {
    var left, rest := Left(tasks, removed), Left(tasks[1..], removed);
    if tasks[0] in removed {
      LeftErase(tasks[1..], removed, at);
    } else if at == 0 {
      assert left == [tasks[0]] + rest;
      LeftIgnores(tasks[1..], removed, tasks[0]);
      assert left[..0] + left[1..] == rest;
    } else {
      assert left == [tasks[0]] + rest;
      LeftErase(tasks[1..], removed, at - 1);
      assert left[at] == rest[at - 1] && left[at] in tasks[1..];
      assert [tasks[0]] + (rest[..at - 1] + rest[at..]) == left[..at] + left[at + 1..];
    }
  }

  lemma ErasingKeepsItems(items: seq<Item>, at: nat, group: GroupId, groupOf: map<MsgId, GroupId>,
      taskGroup: map<TaskId, GroupId>)
    requires at < |items| && ItemsKnown(items, group, groupOf, taskGroup) && Distinct(items)
    ensures ItemsKnown(Erase(items, at), group, groupOf, taskGroup) && Distinct(Erase(items, at))
    ensures AllReady(items) ==> AllReady(Erase(items, at))
  {
    hide ItemKnown;
  }

  lemma ErasingKeepsRecord(items: seq<Item>, at: nat, tasks: seq<TaskId>, removed: set<TaskId>,
      uploaded: map<TaskId, Media>)
    requires at < |items| && Recorded(items, tasks, removed, uploaded) && NoRepeats(tasks)
    ensures Recorded(Erase(items, at), tasks, removed + {items[at].taskId}, uploaded)
  {
    LeftErase(tasks, removed, at);
    assert Tasks(Erase(items, at)) == Tasks(items)[..at] + Tasks(items)[at + 1..];
  }

  /** What is found of an album's other items once one is erased. */
  lemma {:induction false} ErasingFindsMessage(items: seq<Item>, at: nat, msgId: MsgId)
    requires at < |items| && items[at].msgId != msgId
    ensures var found := FindMessage(items, msgId);
      FindMessage(Erase(items, at), msgId) == if found < at then found else found - 1
    decreases at
  {
    if at == 0 {
      assert Erase(items, at) == items[1..];
    } else {
      assert Erase(items, at)[0] == items[0] && Erase(items, at)[1..] == Erase(items[1..], at - 1);
      hide Erase;
      if items[0].msgId != msgId {
        assert items[1..][at - 1] == items[at];
        ErasingFindsMessage(items[1..], at - 1, msgId);
      }
    }
  }

  lemma {:induction false} ErasingFindsTask(items: seq<Item>, at: nat, taskId: TaskId)
    requires at < |items| && items[at].taskId != taskId
    ensures var found := FindTask(items, taskId);
      FindTask(Erase(items, at), taskId) == if found < at then found else found - 1
    decreases at
  {
    if at == 0 {
      assert Erase(items, at) == items[1..];
    } else {
      assert Erase(items, at)[0] == items[0] && Erase(items, at)[1..] == Erase(items[1..], at - 1);
      hide Erase;
      if items[0].taskId != taskId {
        assert items[1..][at - 1] == items[at];
        ErasingFindsTask(items[1..], at - 1, taskId);
      }
    }
  }

  lemma ErasedAt(items: seq<Item>, at: nat, i: nat)
    requires at < |items| && i < |items| && i != at
    ensures Erase(items, at)[if i < at then i else i - 1] == items[i]
  {
  }

  lemma ErasingKeepsOtherMessages(album: SendingAlbum, at: nat, msgId: MsgId)
    requires at < |album.items| && msgId != album.items[at].msgId
    ensures var erased := album.(items := Erase(album.items, at));
      (Listed(album, msgId) ==> Listed(erased, msgId)) && (Waits(album, msgId) ==> Waits(erased, msgId))
  {
    var m := FindMessage(album.items, msgId);
    assert |Erase(album.items, at)| == |album.items| - 1;
    ErasingFindsMessage(album.items, at, msgId);
    if m < |album.items| { ErasedAt(album.items, at, m); }
    hide Erase, FindMessage;
  }

  lemma ErasingKeepsOtherTasks(album: SendingAlbum, at: nat, taskId: TaskId)
    requires at < |album.items| && taskId != album.items[at].taskId
    ensures TaskWaits(album, taskId) ==> TaskWaits(album.(items := Erase(album.items, at)), taskId)
  {
    var t := FindTask(album.items, taskId);
    assert |Erase(album.items, at)| == |album.items| - 1;
    ErasingFindsTask(album.items, at, taskId);
    if t < |album.items| { ErasedAt(album.items, at, t); }
    hide Erase, FindTask;
  }

  lemma ErasingKeepsAlbums(s: State, group: GroupId, at: nat)
    requires Core(s) && group in s.albums && at < |s.albums[group].items|
    ensures AlbumsOk(Erased(s, group, at)) && Numbered(Erased(s, group, at))
  {
    var s', items := Erased(s, group, at), s.albums[group].items;
    assert AlbumOk(s, group, s.albums[group]);
    hide LiveListed, UploadsWait, TasksWait, SentOnce, AlbumsOk, Distinct, Recorded, AllReady, Erase;
    assert ItemKnown(items[at], group, s.groupOf, s.taskGroup);
    hide ItemsKnown;
    ErasingKeepsItems(items, at, group, s.groupOf, s.taskGroup);
    ErasingKeepsRecord(items, at, s.original[group], s.removed, s.uploaded);
    assert AlbumOk(s', group, s'.albums[group]);
    OthersKeepErasing(s, group, at);
  }

  lemma OthersKeepErasing(s: State, group: GroupId, at: nat)
    requires Core(s) && group in s.albums && at < |s.albums[group].items|
    requires AlbumOk(Erased(s, group, at), group, Erased(s, group, at).albums[group])
    ensures AlbumsOk(Erased(s, group, at))
  {
    var s', item := Erased(s, group, at), s.albums[group].items[at];
    assert AlbumOk(s, group, s.albums[group]) && ItemKnown(item, group, s.groupOf, s.taskGroup);
    hide AlbumOk, LiveListed, UploadsWait, TasksWait, SentOnce, FindMessage, Erase;
    forall g | g in s'.albums ensures AlbumOk(s', g, s'.albums[g]) {
      if g != group {
        assert s'.albums[g] == s.albums[g] && AlbumOk(s, g, s.albums[g]);
        OtherAlbumKeeps(s, s', g, s.albums[g], item.taskId);
      }
    }
  }

  lemma ErasingKeepsWaiting(s: State, group: GroupId, at: nat)
    requires Core(s) && group in s.albums && at < |s.albums[group].items|
    ensures var s' := Erased(s, group, at);
      && LiveListed(s'.albums, s'.live, s'.groupOf)
      && UploadsWait(s'.albums, s'.live, s'.uploading, s'.groupOf)
      && TasksWait(s'.albums, s'.preparing, s'.taskGroup)
  {
    var s', items := Erased(s, group, at), s.albums[group].items;
    hide AlbumsOk, Numbered, SentOnce, Erase, FindMessage, FindTask;
    forall m | m != items[at].msgId
      ensures Listed(s.albums[group], m) ==> Listed(s'.albums[group], m)
      ensures Waits(s.albums[group], m) ==> Waits(s'.albums[group], m)
    {
      ErasingKeepsOtherMessages(s.albums[group], at, m);
    }
    forall t | t != items[at].taskId ensures TaskWaits(s.albums[group], t) ==> TaskWaits(s'.albums[group], t) {
      ErasingKeepsOtherTasks(s.albums[group], at, t);
    }
    hide Listed, Waits, TaskWaits;
  }

  lemma ErasingKeeps(s: State, group: GroupId, at: nat)
    requires Core(s) && group in s.albums && at < |s.albums[group].items|
    ensures Core(Erased(s, group, at))
  {
    hide AlbumsOk, Numbered, SentOnce, LiveListed, UploadsWait, TasksWait, Erase;
    ErasingKeepsAlbums(s, group, at);
    ErasingKeepsWaiting(s, group, at);
    SentOnceKeeps(s.albums, s.log, s.nextId, s.nextId, group, Erased(s, group, at).albums[group]);
  }

  // ---- A file is prepared ----

  ghost predicate Unconfirmed(s: State, group: GroupId, at: nat) {
    && group in s.albums && at < |s.albums[group].items|
    && s.albums[group].items[at].msgId == 0 && !s.albums[group].sent
  }

  lemma ConfirmingKeepsAlbum(s: State, group: GroupId, at: nat)
    requires Core(s) && Unconfirmed(s, group, at)
    ensures var s' := Confirmed(s, group, at); AlbumOk(s', group, s'.albums[group])
  {
    var s' := Confirmed(s, group, at);
    var items, items' := s.albums[group].items, s'.albums[group].items;
    assert AlbumOk(s, group, s.albums[group]);
    hide LiveListed, UploadsWait, TasksWait, SentOnce, AlbumsOk, TasksAre, Left;
    forall i | 0 <= i < |items|
      ensures items[i].msgId != s.nextId && ItemKnown(items'[i], group, s'.groupOf, s'.taskGroup)
    {
      assert ItemKnown(items[i], group, s.groupOf, s.taskGroup);
    }
    hide Numbered, ItemKnown;
    assert Tasks(items') == Tasks(items);
  }

  lemma ConfirmingKeepsAlbums(s: State, group: GroupId, at: nat)
    requires Core(s) && Unconfirmed(s, group, at)
    ensures AlbumsOk(Confirmed(s, group, at)) && Numbered(Confirmed(s, group, at))
  {
    var s' := Confirmed(s, group, at);
    ConfirmingKeepsAlbum(s, group, at);
    hide LiveListed, UploadsWait, TasksWait, SentOnce;
    assert AlbumOk(s, group, s.albums[group]) && ItemKnown(s.albums[group].items[at], group, s.groupOf, s.taskGroup);
    hide AlbumOk;
    forall g | g in s'.albums ensures AlbumOk(s', g, s'.albums[g]) {
      if g != group {
        assert s'.albums[g] == s.albums[g] && AlbumOk(s, g, s.albums[g]);
        OtherAlbumKeeps(s, s', g, s.albums[g], s.albums[group].items[at].taskId);
      }
    }
  }

  lemma ConfirmingFindsMessages(album: SendingAlbum, at: nat, new_: MsgId, msgId: MsgId)
    requires at < |album.items| && album.items[at].msgId == 0 && !album.sent && album.items[at].media == NoMedia
    requires forall i :: 0 <= i < |album.items| ==> album.items[i].msgId != new_
    ensures var after := album.(items := album.items[at := album.items[at].(msgId := new_)]);
      && (msgId != 0 && Listed(album, msgId) ==> Listed(after, msgId))
      && (msgId != 0 && Waits(album, msgId) ==> Waits(after, msgId))
      && Waits(after, new_)
  {
    var items := album.items;
    var items' := items[at := items[at].(msgId := new_)];
    assert items'[at].msgId == new_;
    assert forall i :: 0 <= i < |items| && i != at ==> items'[i] == items[i];
    assert FindMessage(items', new_) == at;
    if msgId != 0 && msgId != new_ && FindMessage(items, msgId) < |items| {
      assert items'[FindMessage(items, msgId)].msgId == msgId;
      assert FindMessage(items', msgId) == FindMessage(items, msgId);
    }
  }

  lemma ConfirmingFindsTasks(album: SendingAlbum, at: nat, new_: MsgId, taskId: TaskId)
    requires at < |album.items| && taskId != album.items[at].taskId
    ensures TaskWaits(album, taskId)
      ==> TaskWaits(album.(items := album.items[at := album.items[at].(msgId := new_)]), taskId)
  {
    var items := album.items;
    var items' := items[at := items[at].(msgId := new_)];
    assert forall i :: 0 <= i < |items| ==> items'[i].taskId == items[i].taskId && (i != at ==> items'[i] == items[i]);
    assert FindTask(items', taskId) == FindTask(items, taskId);
  }

  lemma ConfirmingKeepsWaiting(s: State, group: GroupId, at: nat)
    requires Core(s) && Unconfirmed(s, group, at)
    ensures var s' := Confirmed(s, group, at);
      && LiveListed(s'.albums, s'.live, s'.groupOf)
      && UploadsWait(s'.albums, s'.live, s'.uploading, s'.groupOf)
      && TasksWait(s'.albums, s'.preparing, s'.taskGroup)
  {
    var s', album := Confirmed(s, group, at), s.albums[group];
    assert AlbumOk(s, group, album);
    hide AlbumsOk, SentOnce, FindMessage, FindTask, Listed, Waits, TaskWaits;
    assert forall i :: 0 <= i < |album.items| ==> ItemKnown(album.items[i], group, s.groupOf, s.taskGroup);
    forall m
      ensures m != 0 && Listed(album, m) ==> Listed(s'.albums[group], m)
      ensures m != 0 && Waits(album, m) ==> Waits(s'.albums[group], m)
      ensures Waits(s'.albums[group], s.nextId)
    {
      ConfirmingFindsMessages(album, at, s.nextId, m);
    }
    forall t | t != album.items[at].taskId ensures TaskWaits(album, t) ==> TaskWaits(s'.albums[group], t) {
      ConfirmingFindsTasks(album, at, s.nextId, t);
    }
    hide AlbumOk;
    WaitingIsListed(s'.albums[group], s.nextId);
  }

  lemma WaitingIsListed(album: SendingAlbum, msgId: MsgId)
    requires Waits(album, msgId)
    ensures Listed(album, msgId)
  {
  }

  lemma ConfirmingKeeps(s: State, group: GroupId, at: nat)
    requires Core(s) && Unconfirmed(s, group, at)
    ensures Core(Confirmed(s, group, at))
  {
    hide AlbumsOk, Numbered, SentOnce, LiveListed, UploadsWait, TasksWait;
    ConfirmingKeepsAlbums(s, group, at);
    ConfirmingKeepsWaiting(s, group, at);
    SentOnceKeeps(s.albums, s.log, s.nextId, s.nextId + 1, group, Confirmed(s, group, at).albums[group]);
  }

  // ---- The other steps ----

  lemma {:induction false} LeftAll(tasks: seq<TaskId>, removed: set<TaskId>)
    requires forall i :: 0 <= i < |tasks| ==> tasks[i] !in removed
    ensures Left(tasks, removed) == tasks
  {
    if tasks != [] {
      LeftAll(tasks[1..], removed);
    }
  }

  lemma NewItemsAreDistinct(group: GroupId, count: nat)
    ensures Distinct(NewItems(group, count)) && Tasks(NewItems(group, count)) == NewTasks(group, count)
    ensures ItemsKnown(NewItems(group, count), group, map[], TasksOf(group, count))
    ensures TasksAre(NewTasks(group, count), group, TasksOf(group, count))
  {
  }

  lemma KnownStill(items: seq<Item>, tasks: seq<TaskId>, group: GroupId, known: map<TaskId, GroupId>,
      groupOf: map<MsgId, GroupId>, taskGroup: map<TaskId, GroupId>)
    requires ItemsKnown(items, group, map[], known) && TasksAre(tasks, group, known)
    ensures ItemsKnown(items, group, groupOf, taskGroup + known) && TasksAre(tasks, group, taskGroup + known)
  {
    assert forall i :: 0 <= i < |items| ==> ItemKnown(items[i], group, map[], known);
    hide NoRepeats;
  }

  lemma NewItemsAreOk(s: State, count: nat, price: nat, approved: nat)
    requires Core(s)
    ensures var s' := NewAlbum(s, count, price, approved); AlbumOk(s', s.nextId, s'.albums[s.nextId])
  {
    var s', group := NewAlbum(s, count, price, approved), s.nextId;
    var tasks, items := NewTasks(group, count), NewItems(group, count);
    hide AlbumsOk, LiveListed, UploadsWait, TasksWait, SentOnce, TasksOf, Left, ItemsKnown, TasksAre, Distinct, Tasks;
    NewItemsAreDistinct(group, count);
    KnownStill(items, tasks, group, TasksOf(group, count), s.groupOf, s.taskGroup);
    LeftAll(tasks, s.removed);
    assert Recorded(items, tasks, s'.removed, s'.uploaded);
  }

  lemma GrowingKeepsAlbum(s: State, s': State, group: GroupId, album: SendingAlbum)
    requires AlbumOk(s, group, album)
    requires s.nextId <= s'.nextId && s'.groupOf == s.groupOf && s'.removed == s.removed && s'.uploaded == s.uploaded
    requires group in s'.original && s'.original[group] == s.original[group]
    requires forall t :: t in s.taskGroup ==> t in s'.taskGroup && s'.taskGroup[t] == s.taskGroup[t]
    ensures AlbumOk(s', group, album)
  {
    hide Recorded, Distinct, AllReady, NoRepeats;
    assert forall i :: 0 <= i < |album.items| ==> ItemKnown(album.items[i], group, s.groupOf, s.taskGroup);
  }

  lemma NewTasksAreNew(s: State, count: nat, price: nat, approved: nat)
    requires Numbered(s)
    ensures var s' := NewAlbum(s, count, price, approved);
      && Numbered(s')
      && forall t :: t in s.taskGroup ==> t in s'.taskGroup && s'.taskGroup[t] == s.taskGroup[t]
  {
  }

  lemma NewAlbumKeepsAlbums(s: State, count: nat, price: nat, approved: nat)
    requires Core(s)
    ensures AlbumsOk(NewAlbum(s, count, price, approved)) && Numbered(NewAlbum(s, count, price, approved))
  {
    var s', group := NewAlbum(s, count, price, approved), s.nextId;
    NewItemsAreOk(s, count, price, approved);
    NewTasksAreNew(s, count, price, approved);
    hide LiveListed, UploadsWait, TasksWait, SentOnce, TasksOf, AlbumOk, Numbered, NewItems, NewTasks;
    forall g | g in s'.albums ensures AlbumOk(s', g, s'.albums[g]) {
      if g != group {
        assert AlbumOk(s, g, s.albums[g]);
        OriginalOf(s, g);
        GrowingKeepsAlbum(s, s', g, s.albums[g]);
      }
    }
  }

  lemma OriginalOf(s: State, group: GroupId)
    requires group in s.albums && AlbumOk(s, group, s.albums[group])
    ensures group in s.original
  {
  }

  lemma NewTaskWaits(s: State, count: nat, price: nat, approved: nat, t: TaskId)
    requires t in NewAlbum(s, count, price, approved).preparing && t !in s.preparing
    ensures TaskWaits(NewAlbum(s, count, price, approved).albums[s.nextId], t)
  {
    assert NewAlbum(s, count, price, approved).albums[s.nextId].items[t - s.nextId - 1].taskId == t;
  }

  lemma NewTasksWait(s: State, count: nat, price: nat, approved: nat)
    requires Core(s)
    ensures var s' := NewAlbum(s, count, price, approved); TasksWait(s'.albums, s'.preparing, s'.taskGroup)
  {
    var s' := NewAlbum(s, count, price, approved);
    hide AlbumsOk, LiveListed, UploadsWait, SentOnce, TaskWaits;
    forall t | t in s'.preparing && t !in s.preparing ensures TaskWaits(s'.albums[s.nextId], t) {
      NewTaskWaits(s, count, price, approved, t);
    }
  }

  lemma RegisteredAreNumbered(s: State)
    requires AlbumsOk(s)
    ensures forall g :: g in s.albums ==> g < s.nextId
  {
    hide ItemsKnown, Distinct, Recorded, TasksAre, AllReady;
    assert forall g :: g in s.albums ==> AlbumOk(s, g, s.albums[g]);
  }

  /** An album that no message has is no concern of those there are. */
  lemma AddingKeepsWaiting(
    albums: map<GroupId, SendingAlbum>, live: set<MsgId>, uploading: set<MsgId>, groupOf: map<MsgId, GroupId>,
    group: GroupId, album: SendingAlbum)
    requires LiveListed(albums, live, groupOf) && UploadsWait(albums, live, uploading, groupOf)
    requires forall m :: m in groupOf ==> groupOf[m] != group
    ensures LiveListed(albums[group := album], live, groupOf)
      && UploadsWait(albums[group := album], live, uploading, groupOf)
  {
    hide Listed, Waits;
  }

  lemma AddingKeepsSent(albums: map<GroupId, SendingAlbum>, log: seq<Sent>, nextId: nat, nextId': nat,
      album: SendingAlbum)
    requires SentOnce(albums, log, nextId) && nextId < nextId' && !album.sent
    ensures SentOnce(albums[nextId := album], log, nextId')
  {
    hide Sends;
  }

  lemma AddingKeepsStalled(albums: map<GroupId, SendingAlbum>, stalled: set<GroupId>, group: GroupId,
      album: SendingAlbum)
    requires StalledAre(albums, stalled) && group !in albums
    ensures StalledAre(albums[group := album], if Complete(album) then stalled + {group} else stalled)
  {
    hide Complete;
  }

  lemma NewIsComplete(s: State, count: nat, price: nat, approved: nat)
    ensures Complete(NewAlbum(s, count, price, approved).albums[s.nextId]) <==> count == 0
  {
    if count > 0 { assert NewAlbum(s, count, price, approved).albums[s.nextId].items[0].media == NoMedia; }
  }

  lemma NewAlbumKeeps(s: State, count: nat, price: nat, approved: nat)
    requires Inv(s)
    ensures Inv(NewAlbum(s, count, price, approved))
  {
    hide AlbumsOk, LiveListed, UploadsWait, TasksWait, SentOnce, StalledAre, Complete, TasksOf;
    var s' := NewAlbum(s, count, price, approved);
    RegisteredAreNumbered(s);
    NewAlbumKeepsAlbums(s, count, price, approved);
    NewTasksWait(s, count, price, approved);
    NewIsComplete(s, count, price, approved);
    AddingKeepsWaiting(s.albums, s.live, s.uploading, s.groupOf, s.nextId, s'.albums[s.nextId]);
    AddingKeepsSent(s.albums, s.log, s.nextId, s'.nextId, s'.albums[s.nextId]);
    AddingKeepsStalled(s.albums, s.stalled, s.nextId, s'.albums[s.nextId]);
  }

  /** A message that is gone, or whose upload ended, waits for nothing. */
  lemma LessToWaitForKeeps(s: State, live: set<MsgId>, uploading: set<MsgId>, inFlight: map<nat, Sent>)
    requires Inv(s) && live <= s.live && uploading <= s.uploading
    requires forall id :: id in inFlight ==> id in s.inFlight && inFlight[id] == s.inFlight[id]
    ensures Inv(s.(live := live, uploading := uploading, inFlight := inFlight))
  {
    var s' := s.(live := live, uploading := uploading, inFlight := inFlight);
    hide AlbumsOk, SentOnce, TasksWait, StalledAre, Listed, Waits, Sends;
    AlbumsOkStill(s, s');
  }

  // Once an album was sent none of its files is unfinished.
  lemma SentIsForgettable(s: State, group: GroupId)
    requires Inv(s) && group in s.albums && s.albums[group].sent
    ensures Core(Forgotten(s, group)) && StalledAre(Forgotten(s, group).albums, s.stalled)
  {
    assert AllReady(s.albums[group].items) by { assert AlbumOk(s, group, s.albums[group]); }
    CompleteIsForgettable(s, group);
    ForgettingKeeps(s, group);
    hide Core, AllReady;
  }

  // ---- The steps of a run ----

  lemma PreparingHasTask(s: State, taskId: TaskId)
    requires Core(s) && taskId in s.preparing
    ensures HasTask(s, taskId)
    ensures Unconfirmed(s, s.taskGroup[taskId], FindTask(s.albums[s.taskGroup[taskId]].items, taskId))
  {
    hide AlbumsOk, LiveListed, UploadsWait, SentOnce, Numbered;
  }

  lemma LiveHasMessage(s: State, msgId: MsgId)
    requires Core(s) && msgId in s.live
    ensures msgId in s.groupOf && (s.groupOf[msgId] in s.albums ==> HasMessage(s, msgId))
  {
    hide AlbumsOk, TasksWait, UploadsWait, SentOnce, Numbered;
  }

  lemma UploadingHasMessage(s: State, msgId: MsgId)
    requires Core(s) && msgId in s.live && msgId in s.uploading
    ensures HasMessage(s, msgId) && Waits(s.albums[s.groupOf[msgId]], msgId)
  {
    hide AlbumsOk, TasksWait, LiveListed, SentOnce, Numbered;
  }

  lemma OneAlbumStalls(albums: map<GroupId, SendingAlbum>, stalled: set<GroupId>, group: GroupId, album: SendingAlbum)
    requires StalledAre(albums, stalled) && group in albums
    ensures StalledAreBut(albums[group := album], stalled, group)
    ensures Complete(album) == Complete(albums[group]) ==> StalledAre(albums[group := album], stalled)
  {
    hide Complete;
  }

  lemma ConfirmKeeps(s: State, taskId: TaskId)
    requires Inv(s) && taskId in s.preparing
    ensures HasTask(s, taskId) && Inv(Confirm(s, taskId))
  {
    PreparingHasTask(s, taskId);
    var group := s.taskGroup[taskId];
    var album := s.albums[group];
    var at := FindTask(album.items, taskId);
    var s' := Confirm(s, taskId);
    assert AlbumOk(s, group, album) && ItemKnown(album.items[at], group, s.groupOf, s.taskGroup);
    assert album.items[at].media == NoMedia && s'.albums[group].items[at].media == NoMedia;
    assert !Complete(album) && !Complete(s'.albums[group]);
    hide Core, StalledAre, Complete, FindTask, AlbumOk;
    ConfirmingKeeps(s, group, at);
    OneAlbumStalls(s.albums, s.stalled, group, s'.albums[group]);
  }

  lemma ReplacedStalls(albums: map<GroupId, SendingAlbum>, stalled: set<GroupId>, group: GroupId, album: SendingAlbum)
    requires StalledAre(albums, stalled) && group in albums && !Complete(albums[group])
    ensures StalledAre(albums[group := album], if Complete(album) then stalled + {group} else stalled)
  {
    hide Complete;
  }

  lemma RemoveFromAlbumKeeps(s: State, taskId: TaskId)
    requires Inv(s) && taskId in s.preparing
    ensures HasTask(s, taskId) && Inv(RemoveFromAlbum(s, taskId))
  {
    PreparingHasTask(s, taskId);
    var group := s.taskGroup[taskId];
    var album := s.albums[group];
    var at := FindTask(album.items, taskId);
    var erased := Erased(s, group, at);
    UnpreparedFileIsMissing(s, taskId);
    assert !Complete(album) && !erased.albums[group].sent;
    assert Complete(erased.albums[group]) == AllReady(erased.albums[group].items);
    hide Core, StalledAre, AllReady, Complete, FindTask, Erase;
    ErasingKeeps(s, group, at);
    StalledIsIrrelevant(erased, RemoveFromAlbum(s, taskId).stalled);
    ReplacedStalls(s.albums, s.stalled, group, erased.albums[group]);
  }

  lemma UploadDoneKeeps(s: State, msgId: MsgId, media: nat, starsPerMessage: nat)
    requires Inv(s) && msgId in s.uploading
    ensures msgId in s.live ==> HasMessage(s, msgId)
    ensures Inv(UploadDone(s, msgId, media, starsPerMessage))
  {
    hide StalledAre, StalledAreBut, FindMessage;
    if msgId in s.live {
      UploadingHasMessage(s, msgId);
      FillingKeeps(s, msgId, media);
      hide Core;
      var group, s' := s.groupOf[msgId], Filled(s, msgId, media);
      OneAlbumStalls(s.albums, s.stalled, group, s'.albums[group]);
      SendIfReadyKeeps(s', group, starsPerMessage);
      hide SendIfReady;
    } else {
      hide Core;
      LessToWaitForKeeps(s, s.live, s.uploading - {msgId}, s.inFlight);
    }
  }

  lemma CancelledKeeps(s: State, msgId: MsgId, starsPerMessage: nat)
    requires Inv(s) && msgId in s.live
    ensures msgId in s.groupOf && (s.groupOf[msgId] in s.albums ==> HasMessage(s, msgId))
    ensures Inv(Cancelled(s, msgId, starsPerMessage))
  {
    hide StalledAre, StalledAreBut, FindMessage;
    LiveHasMessage(s, msgId);
    hide Core;
    var group := s.groupOf[msgId];
    if group in s.albums {
      var at := FindMessage(s.albums[group].items, msgId);
      ErasingKeeps(s, group, at);
      OneAlbumStalls(s.albums, s.stalled, group, Erased(s, group, at).albums[group]);
      SendIfReadyKeeps(Erased(s, group, at), group, starsPerMessage);
      hide SendIfReady;
    } else {
      LessToWaitForKeeps(s, s.live - {msgId}, s.uploading, s.inFlight);
    }
  }

  lemma OnNetworkIsSent(s: State, id: nat)
    requires Core(s) && id in s.inFlight && s.inFlight[id].group in s.albums
    ensures s.albums[s.inFlight[id].group].sent
  {
    hide AlbumsOk, LiveListed, UploadsWait, TasksWait, Numbered, Sends;
  }

  lemma AnswerKeeps(s: State, id: nat)
    requires Inv(s) && id in s.inFlight
    ensures Inv(SendDone(s, id)) && Inv(SendFail(s, id))
  {
    var sent := s.inFlight[id];
    var rest := s.(inFlight := s.inFlight - {id});
    if sent.group in s.albums { OnNetworkIsSent(s, id); }
    hide Core, StalledAre, Messages;
    LessToWaitForKeeps(s, s.live, s.uploading, s.inFlight - {id});
    assert rest == s.(live := s.live, uploading := s.uploading, inFlight := s.inFlight - {id});
    if sent.group in s.albums {
      SentIsForgettable(rest, sent.group);
      var forgotten := Forgotten(rest, sent.group);
      LessToWaitForKeeps(forgotten, s.live - Messages(s.albums[sent.group].items), s.uploading, forgotten.inFlight);
    } else {
      assert s.albums - {sent.group} == s.albums;
    }
  }

  // ---- Whole runs ----

  datatype Event =
    | DoNewAlbum(count: nat, price: nat, approved: nat)
    | DoConfirm(taskId: TaskId)
    | DoPrepareFail(taskId: TaskId)
    | DoUploadDone(msgId: MsgId, media: nat, stars: nat)
    | DoUploadFail(msgId: MsgId)
    | DoCancel(msgId: MsgId, stars: nat)
    | DoVanish(msgId: MsgId)
    | DoSendDone(id: nat)
    | DoSendFail(id: nat)

  /** Whether an event can happen. */
  predicate Enabled(s: State, event: Event) {
    match event
    case DoNewAlbum(_, _, _) => true
    case DoConfirm(taskId) => taskId in s.preparing
    case DoPrepareFail(taskId) => taskId in s.preparing
    case DoUploadDone(msgId, _, _) => msgId in s.uploading
    case DoUploadFail(msgId) => msgId in s.uploading
    case DoCancel(msgId, _) => msgId in s.live
    case DoVanish(msgId) => msgId in s.live
    case DoSendDone(id) => id in s.inFlight
    case DoSendFail(id) => id in s.inFlight
  }

  /** Whether the lookups that the source asserts succeed. */
  predicate AssertsHold(s: State, event: Event) {
    match event
    case DoConfirm(taskId) => HasTask(s, taskId)
    case DoPrepareFail(taskId) => HasTask(s, taskId)
    case DoUploadDone(msgId, _, _) =>
      msgId in s.live ==>
        && HasMessage(s, msgId)
        && var items := s.albums[s.groupOf[msgId]].items; items[FindMessage(items, msgId)].media == NoMedia
    case DoCancel(msgId, _) => msgId in s.groupOf && (s.groupOf[msgId] in s.albums ==> HasMessage(s, msgId))
    case _ => true
  }

  function Step(s: State, event: Event): State {
    if !Enabled(s, event) || !AssertsHold(s, event) then s
    else
      match event
      case DoNewAlbum(count, price, approved) => NewAlbum(s, count, price, approved)
      case DoConfirm(taskId) => Confirm(s, taskId)
      case DoPrepareFail(taskId) => RemoveFromAlbum(s, taskId)
      case DoUploadDone(msgId, media, stars) => UploadDone(s, msgId, media, stars)
      case DoUploadFail(msgId) => s.(uploading := s.uploading - {msgId})
      case DoCancel(msgId, stars) => Cancelled(s, msgId, stars)
      case DoVanish(msgId) => s.(live := s.live - {msgId})
      case DoSendDone(id) => SendDone(s, id)
      case DoSendFail(id) => SendFail(s, id)
  }

  function Run(events: seq<Event>): State
    decreases |events|
  {
    if events == [] then INITIAL else Step(Run(events[..|events| - 1]), events[|events| - 1])
  }

  lemma StepKeeps(s: State, event: Event)
    requires Inv(s)
    ensures Inv(Step(s, event))
    ensures Enabled(s, event) ==> AssertsHold(s, event)
  {
    hide StalledAre, NewAlbum, Confirm, RemoveFromAlbum, UploadDone, Cancelled, SendDone, SendFail, FindMessage,
      FindTask;
    if Enabled(s, event) {
      match event
      case DoNewAlbum(count, price, approved) => hide Core; NewAlbumKeeps(s, count, price, approved);
      case DoConfirm(taskId) => hide Core; ConfirmKeeps(s, taskId);
      case DoPrepareFail(taskId) => hide Core; RemoveFromAlbumKeeps(s, taskId);
      case DoUploadDone(msgId, media, stars) =>
        hide Core;
        UploadDoneKeeps(s, msgId, media, stars);
        if msgId in s.live { UploadingHasMessage(s, msgId); }
      case DoUploadFail(msgId) => hide Core; LessToWaitForKeeps(s, s.live, s.uploading - {msgId}, s.inFlight);
      case DoCancel(msgId, stars) => hide Core; CancelledKeeps(s, msgId, stars);
      case DoVanish(msgId) => hide Core; LessToWaitForKeeps(s, s.live - {msgId}, s.uploading, s.inFlight);
      case DoSendDone(id) => hide Core; AnswerKeeps(s, id);
      case DoSendFail(id) => hide Core; AnswerKeeps(s, id);
    }
  }

  lemma InitialKeeps()
    ensures Inv(INITIAL)
  {
  }

  lemma {:induction false} EveryRunKeeps(events: seq<Event>)
    ensures Inv(Run(events))
    decreases |events|
  {
    hide Inv, Step;
    if events == [] {
      InitialKeeps();
    } else {
      EveryRunKeeps(events[..|events| - 1]);
      StepKeeps(Run(events[..|events| - 1]), events[|events| - 1]);
    }
  }

  /** No event of a run fails an assertion of the source. */
  lemma AssertsNeverFail(events: seq<Event>, event: Event)
    requires Enabled(Run(events), event)
    ensures AssertsHold(Run(events), event)
  {
    EveryRunKeeps(events);
    hide *;
    StepKeeps(Run(events), event);
  }

  /** Two entries of the log for one album count twice. */
  lemma {:induction false} TwoSendsCount(log: seq<Sent>, i: nat, j: nat)
    requires i < j < |log| && log[i].group == log[j].group
    ensures Sends(log, log[j].group) >= 2
    decreases |log|
  {
    if j == |log| - 1 {
      OneSendCounts(log[..j], i);
    } else {
      TwoSendsCount(log[..|log| - 1], i, j);
    }
  }

  lemma {:induction false} OneSendCounts(log: seq<Sent>, i: nat)
    requires i < |log|
    ensures Sends(log, log[i].group) >= 1
    decreases |log|
  {
    if i < |log| - 1 {
      OneSendCounts(log[..|log| - 1], i);
    }
  }

  /** Whatever happens, an album is sent at most once. */
  lemma SentAtMostOnce(events: seq<Event>, i: nat, j: nat)
    requires i < j < |Run(events).log|
    ensures Run(events).log[i].group != Run(events).log[j].group
  {
    hide Run, AlbumsOk, LiveListed, UploadsWait, TasksWait, Sends;
    EveryRunKeeps(events);
    var log := Run(events).log;
    if log[i].group == log[j].group {
      TwoSendsCount(log, i, j);
    }
  }

  function UploadedForAll(tasks: seq<TaskId>, uploaded: map<TaskId, Media>): seq<Media> {
    seq(|tasks|, i requires 0 <= i < |tasks| => UploadedFor(tasks[i], uploaded))
  }

  /**
   * A request for an album that was not sent before: it carries what was
   * uploaded for the files that were not removed, in their order, and nothing is missing.
   */
  ghost predicate CarriesTheRest(s: State, s': State, request: Sent) {
    var group := request.group;
    && group in s.albums && !s.albums[group].sent && group in s'.original
    && request.medias == UploadedForAll(Left(s'.original[group], s'.removed), s'.uploaded)
    && request.medias != [] && NoMedia !in request.medias
    && request.kind == if s.albums[group].price > 0 then Paid else if |request.medias| == 1 then Single else Multi
  }

  lemma MediasAreUploaded(s: State, group: GroupId)
    requires AlbumsOk(s) && group in s.albums && AllReady(s.albums[group].items)
    ensures group in s.original
    ensures Medias(s.albums[group].items) == UploadedForAll(Left(s.original[group], s.removed), s.uploaded)
    ensures NoMedia !in Medias(s.albums[group].items)
  {
    var items := s.albums[group].items;
    assert AlbumOk(s, group, s.albums[group]);
    hide Distinct, ItemsKnown, TasksAre, Left, UploadedFor;
    assert Tasks(items) == Left(s.original[group], s.removed);
  }

  lemma SendIfReadyCarries(s: State, group: GroupId, starsPerMessage: nat)
    requires AlbumsOk(s) && group in s.albums
    ensures var s' := SendIfReady(s, group, starsPerMessage);
      s'.log == s.log || (s'.log == s.log + [s'.log[|s.log|]] && CarriesTheRest(s, s', s'.log[|s.log|]))
  {
    var album := s.albums[group];
    if Complete(album) {
      MediasAreUploaded(s, group);
      hide AlbumsOk, AllReady, Left, UploadedForAll, Min;
      assert |Medias(album.items)| == |album.items|;
    } else {
      hide AlbumsOk;
    }
  }

  lemma CarriesFromBefore(s: State, f: State, s': State, request: Sent)
    requires CarriesTheRest(f, s', request) && request.group in s.albums
    requires f.albums[request.group].sent == s.albums[request.group].sent
      && f.albums[request.group].price == s.albums[request.group].price
    ensures CarriesTheRest(s, s', request)
  {
  }

  lemma UploadSendsTheRest(s: State, msgId: MsgId, media: nat, starsPerMessage: nat)
    requires Core(s) && msgId in s.live && msgId in s.uploading && HasMessage(s, msgId)
    ensures var s' := UploadDone(s, msgId, media, starsPerMessage);
      s'.log == s.log || (s'.log == s.log + [s'.log[|s.log|]] && CarriesTheRest(s, s', s'.log[|s.log|]))
  {
    var f, s' := Filled(s, msgId, media), UploadDone(s, msgId, media, starsPerMessage);
    UploadingHasMessage(s, msgId);
    FillingKeeps(s, msgId, media);
    hide LiveListed, UploadsWait, TasksWait, SentOnce, Numbered, AlbumsOk, NetworkWasSent, SendIfReady,
      CarriesTheRest, FindMessage;
    SendIfReadyCarries(f, s.groupOf[msgId], starsPerMessage);
    if s'.log != s.log {
      CarriedIsRegistered(f, s', s'.log[|s.log|]);
      CarriesFromBefore(s, f, s', s'.log[|s.log|]);
    }
  }

  lemma CarriedIsRegistered(s: State, s': State, request: Sent)
    requires CarriesTheRest(s, s', request)
    ensures request.group in s.albums
  {
  }

  lemma CancelSendsTheRest(s: State, msgId: MsgId, starsPerMessage: nat)
    requires Core(s) && msgId in s.live && HasMessage(s, msgId)
    ensures var s' := Cancelled(s, msgId, starsPerMessage);
      s'.log == s.log || (s'.log == s.log + [s'.log[|s.log|]] && CarriesTheRest(s, s', s'.log[|s.log|]))
  {
    var group, s' := s.groupOf[msgId], Cancelled(s, msgId, starsPerMessage);
    var f := Erased(s, group, FindMessage(s.albums[group].items, msgId));
    ErasingKeeps(s, group, FindMessage(s.albums[group].items, msgId));
    hide LiveListed, UploadsWait, TasksWait, SentOnce, Numbered, AlbumsOk, NetworkWasSent, SendIfReady,
      CarriesTheRest, FindMessage;
    SendIfReadyCarries(f, group, starsPerMessage);
    if s'.log != s.log {
      CarriedIsRegistered(f, s', s'.log[|s.log|]);
      CarriesFromBefore(s, f, s', s'.log[|s.log|]);
    }
  }

  /** The log stays, or grows by a request that carries the rest of an album. */
  ghost predicate SendsTheRest(s: State, s': State) {
    || s'.log == s.log
    || (|s'.log| == |s.log| + 1 && s'.log == s.log + [s'.log[|s.log|]] && CarriesTheRest(s, s', s'.log[|s.log|]))
  }

  lemma StepSendsTheRest(s: State, event: Event)
    requires Inv(s) && Enabled(s, event)
    ensures SendsTheRest(s, Step(s, event))
  {
    StepKeeps(s, event);
    hide StalledAre, SendIfReady, FindMessage, FindTask, CarriesTheRest, Sends;
    match event
    case DoUploadDone(msgId, media, stars) =>
      if msgId in s.live { UploadSendsTheRest(s, msgId, media, stars); }
    case DoCancel(msgId, stars) =>
      if s.groupOf[msgId] in s.albums { CancelSendsTheRest(s, msgId, stars); }
    case _ => hide Core;
  }

  /** In every run, each request for an album carries all that is left of it. */
  lemma SendsCarryTheRest(events: seq<Event>, event: Event)
    requires Enabled(Run(events), event)
    ensures SendsTheRest(Run(events), Step(Run(events), event))
  {
    EveryRunKeeps(events);
    hide *;
    StepSendsTheRest(Run(events), event);
  }

  // ---- What becomes of files, messages and albums ----

  /** The files of a new album are to be prepared; it has an item for each, and was not sent. */
  lemma NewAlbumIs(events: seq<Event>, count: nat, price: nat, approved: nat)
    ensures var s := Run(events); var s', group := Step(s, DoNewAlbum(count, price, approved)), s.nextId;
      && group !in s.albums && s'.albums.Keys == s.albums.Keys + {group}
      && (forall g :: g in s.albums ==> s'.albums[g] == s.albums[g])
      && var album := s'.albums[group];
      && !album.sent && album.price == price && album.starsApproved == approved && |album.items| == count
      && (forall i :: 0 <= i < count ==>
           var item := album.items[i];
           item.msgId == 0 && item.media == NoMedia && item.taskId in s'.preparing && item.taskId !in s.preparing)
      && (forall i, j :: 0 <= i < j < count ==> album.items[i].taskId != album.items[j].taskId)
  {
    EveryRunKeeps(events);
    var s := Run(events);
    RegisteredAreNumbered(s);
    PreparingAreNumbered(s);
    hide Run, Inv, Core;
    var s' := NewAlbum(s, count, price, approved);
    assert s'.albums.Keys == s.albums.Keys + {s.nextId};
  }

  lemma PreparingAreNumbered(s: State)
    requires Inv(s)
    ensures forall t :: t in s.preparing ==> t < s.nextId
  {
    hide AlbumsOk, LiveListed, UploadsWait, SentOnce, TaskWaits;
  }

  /** An album's items with one of them changed. */
  ghost predicate OneItemChanged(s: State, s': State, group: GroupId, at: nat, item: Item) {
    && group in s.albums && at < |s.albums[group].items|
    && s'.albums == s.albums[group := s.albums[group].(items := s.albums[group].items[at := item])]
  }

  /** A prepared file is prepared no longer; its item gets a new message, which exists and is being uploaded. */
  lemma PreparedIs(events: seq<Event>, taskId: TaskId)
    requires taskId in Run(events).preparing
    ensures var s := Run(events); var s', msgId := Step(s, DoConfirm(taskId)), s.nextId;
      && s'.preparing == s.preparing - {taskId}
      && msgId !in s.live && s'.live == s.live + {msgId} && s'.uploading == s.uploading + {msgId}
      && exists group, at: nat :: group in s.albums && at < |s.albums[group].items|
           && s.albums[group].items[at].taskId == taskId
           && OneItemChanged(s, s', group, at, Item(taskId, msgId, NoMedia))
  {
    EveryRunKeeps(events);
    var s := Run(events);
    PreparingHasTask(s, taskId);
    StepKeeps(s, DoConfirm(taskId));
    var group := s.taskGroup[taskId];
    var at := FindTask(s.albums[group].items, taskId);
    ItemsAreKnown(s, group, at, at);
    NewMessageIsNew(s);
    hide Run, Inv, Core, FindTask;
    assert OneItemChanged(s, Confirm(s, taskId), group, at, Item(taskId, s.nextId, NoMedia));
  }

  lemma NewMessageIsNew(s: State)
    requires Inv(s)
    ensures s.nextId !in s.live && 0 !in s.live && forall t :: t in s.uploaded ==> t < s.nextId
  {
    hide AlbumsOk, UploadsWait, TasksWait, SentOnce, Listed;
  }

  /** A file that cannot be prepared is prepared no longer and leaves its album. */
  lemma UnpreparedIs(events: seq<Event>, taskId: TaskId)
    requires taskId in Run(events).preparing
    ensures var s := Run(events); var s' := Step(s, DoPrepareFail(taskId));
      && s'.preparing == s.preparing - {taskId} && s'.removed == s.removed + {taskId}
      && s'.log == s.log && s'.albums.Keys == s.albums.Keys && s'.uploading == s.uploading
      && forall m :: m in s.live && m != 0 ==> m in s'.live
  {
    hide Run, Inv, Core, FindTask, AllReady, Erase;
    EveryRunKeeps(events);
    var s := Run(events);
    assert Inv(s) ==> Core(s) by { hide *; InvIsCore(s); }
    PreparingHasTask(s, taskId);
    StepKeeps(s, DoPrepareFail(taskId));
    assert Step(s, DoPrepareFail(taskId)) == RemoveFromAlbum(s, taskId);
    hide Step, HasTask;
  }

  lemma InvIsCore(s: State)
    ensures Inv(s) ==> Core(s)
  {
    hide Core;
  }

  /** The media of an uploaded message is that of the upload, under a random id of its own; no other file's changes. */
  lemma UploadedIs(events: seq<Event>, msgId: MsgId, media: nat, stars: nat)
    requires msgId in Run(events).uploading
    ensures var s := Run(events); var s' := Step(s, DoUploadDone(msgId, media, stars));
      && s'.uploading == s.uploading - {msgId} && s'.live == s.live
      && s'.preparing == s.preparing && s'.removed == s.removed
      && if msgId in s.live then
           exists group, at: nat :: group in s.albums && at < |s.albums[group].items|
             && s.albums[group].items[at].msgId == msgId
             && s'.uploaded == s.uploaded[s.albums[group].items[at].taskId := Media(media, s.nextId)]
         else s'.uploaded == s.uploaded
  {
    EveryRunKeeps(events);
    var s := Run(events);
    StepKeeps(s, DoUploadDone(msgId, media, stars));
    if msgId in s.live {
      UploadingHasMessage(s, msgId);
      SendIfReadyIs(Filled(s, msgId, media), s.groupOf[msgId], stars);
    }
    hide Run, Inv, Core, FindMessage, SendIfReady, AllReady;
  }

  /** A destroyed message is gone, and its file leaves the album that is registered for it. */
  lemma DestroyedIs(events: seq<Event>, msgId: MsgId, stars: nat)
    requires msgId in Run(events).live
    ensures var s := Run(events); var s' := Step(s, DoCancel(msgId, stars));
      && s'.live == s.live - {msgId} && s'.uploaded == s.uploaded && s'.uploading == s.uploading
      && if exists g, i :: g in s.albums && 0 <= i < |s.albums[g].items| && s.albums[g].items[i].msgId == msgId then
           exists g, i :: g in s.albums && 0 <= i < |s.albums[g].items| && s.albums[g].items[i].msgId == msgId
             && s'.removed == s.removed + {s.albums[g].items[i].taskId}
         else s'.removed == s.removed
  {
    hide Run, Inv, FindMessage, SendIfReady, AllReady, Erase;
    EveryRunKeeps(events);
    var s := Run(events);
    StepKeeps(s, DoCancel(msgId, stars));
    LiveHasMessage(s, msgId) by { InvIsCore(s); }
    OnlyItsAlbumHasIt(s, msgId);
    var group := s.groupOf[msgId];
    if group in s.albums {
      var at := FindMessage(s.albums[group].items, msgId);
      SendIfReadyIs(Erased(s, group, at), group, stars);
      CancelLooks(s, msgId, stars);
      assert s.albums[group].items[at].msgId == msgId;
    }
    hide Complete, RequestFor;
  }

  lemma OnlyItsAlbumHasIt(s: State, msgId: MsgId)
    requires Inv(s) && msgId in s.live
    ensures forall g, i :: g in s.albums && 0 <= i < |s.albums[g].items| && s.albums[g].items[i].msgId == msgId ==>
      msgId in s.groupOf && s.groupOf[msgId] == g
  {
    assert 0 !in s.live by { NewMessageIsNew(s); }
    hide LiveListed, UploadsWait, TasksWait, SentOnce, NetworkWasSent, StalledAre;
    forall g, i | g in s.albums && 0 <= i < |s.albums[g].items| && s.albums[g].items[i].msgId == msgId
      ensures msgId in s.groupOf && s.groupOf[msgId] == g
    {
      assert AlbumOk(s, g, s.albums[g]);
      assert ItemKnown(s.albums[g].items[i], g, s.groupOf, s.taskGroup);
    }
  }

  /** An answered request is off the network; the messages of a paid album that was sent go with it, and no others. */
  lemma AnsweredIs(events: seq<Event>, id: nat, m: MsgId)
    requires id in Run(events).inFlight
    ensures var s := Run(events); var sent, s' := s.inFlight[id], Step(s, DoSendDone(id));
      && s'.inFlight == s.inFlight - {id} && s'.log == s.log
      && (m in s'.live <==>
           && m in s.live
           && !(sent.kind == Paid && sent.group in s.albums
                && exists i :: 0 <= i < |s.albums[sent.group].items| && s.albums[sent.group].items[i].msgId == m))
    ensures var s := Run(events); var s' := Step(s, DoSendFail(id));
      s'.inFlight == s.inFlight - {id} && s'.live == s.live && s'.log == s.log
  {
    hide Run;
    var s := Run(events);
    var group := s.inFlight[id].group;
    if group in s.albums {
      var items := s.albums[group].items;
      assert m in Messages(items) <==> exists i :: 0 <= i < |items| && items[i].msgId == m by {
        assert forall i :: 0 <= i < |items| ==> items[i] in items;
      }
    }
    hide Messages;
  }

  /** What was uploaded has random ids of its own, all used up. */
  ghost predicate RandomIdsAreOwn(uploaded: map<TaskId, Media>, nextId: nat) {
    && (forall t :: t in uploaded ==> uploaded[t].Media? && uploaded[t].randomId < nextId)
    && forall t, u :: t in uploaded && u in uploaded && t != u ==> uploaded[t].randomId != uploaded[u].randomId
  }

  /** What is uploaded was so before, but for one file, which has media under an id that is used up then. */
  ghost predicate UsesUpIds(s: State, s': State) {
    && s.nextId <= s'.nextId
    && (forall t :: t in s'.uploaded && !(t in s.uploaded && s'.uploaded[t] == s.uploaded[t]) ==>
         s'.uploaded[t].Media? && s'.uploaded[t].randomId == s.nextId < s'.nextId)
    && forall t, u :: t in s'.uploaded && u in s'.uploaded && t != u ==>
         || (t in s.uploaded && s'.uploaded[t] == s.uploaded[t])
         || (u in s.uploaded && s'.uploaded[u] == s.uploaded[u])
  }

  lemma UploadUsesUpIds(s: State, msgId: MsgId, media: nat, stars: nat)
    requires HasMessage(s, msgId) && msgId in s.live
    ensures UsesUpIds(s, UploadDone(s, msgId, media, stars))
  {
    var f, group := Filled(s, msgId, media), s.groupOf[msgId];
    SendIfReadyIs(f, group, stars);
    var task := s.albums[group].items[FindMessage(s.albums[group].items, msgId)].taskId;
    assert f.uploaded == s.uploaded[task := Media(media, s.nextId)];
    hide SendIfReady, FindMessage, Complete, AllReady, RequestFor;
  }

  lemma CancelUsesUpIds(s: State, msgId: MsgId, stars: nat)
    requires msgId in s.groupOf && (s.groupOf[msgId] in s.albums ==> HasMessage(s, msgId))
    ensures UsesUpIds(s, Cancelled(s, msgId, stars))
  {
    var group := s.groupOf[msgId];
    if group in s.albums {
      SendIfReadyIs(Erased(s, group, FindMessage(s.albums[group].items, msgId)), group, stars);
    }
    hide SendIfReady, FindMessage, Complete, AllReady, Erase, RequestFor;
  }

  lemma StepUsesUpIds(s: State, event: Event)
    ensures UsesUpIds(s, Step(s, event))
  {
    hide FindMessage, FindTask, UsesUpIds, UploadDone, Cancelled;
    match event
    case DoUploadDone(msgId, media, stars) =>
      if Enabled(s, event) && AssertsHold(s, event) {
        if msgId in s.live { UploadUsesUpIds(s, msgId, media, stars); } else { LateUploadIs(s, msgId, media, stars); }
      }
      OthersUseUpIds(s, event);
    case DoCancel(msgId, stars) =>
      if Enabled(s, event) && AssertsHold(s, event) { CancelUsesUpIds(s, msgId, stars); }
      OthersUseUpIds(s, event);
    case _ => OthersUseUpIds(s, event); hide Step;
  }

  lemma OthersUseUpIds(s: State, event: Event)
    ensures event.DoUploadDone? && event.msgId !in s.live ==> UsesUpIds(s, s.(uploading := s.uploading - {event.msgId}))
    ensures !event.DoUploadDone? && !event.DoCancel? ==> UsesUpIds(s, Step(s, event))
    ensures UsesUpIds(s, s)
  {
    hide FindMessage, FindTask, UploadDone, Cancelled, AllReady, Erase, TasksOf, Messages;
  }

  lemma StepGivesOwnIds(s: State, event: Event)
    requires RandomIdsAreOwn(s.uploaded, s.nextId)
    ensures RandomIdsAreOwn(Step(s, event).uploaded, Step(s, event).nextId)
  {
    StepUsesUpIds(s, event);
    hide Step;
  }

  /** In every run no two files are uploaded under the same random id. */
  lemma {:induction false} RandomIdsDiffer(events: seq<Event>)
    ensures RandomIdsAreOwn(Run(events).uploaded, Run(events).nextId)
    decreases |events|
  {
    hide Inv, Step;
    if events != [] {
      RandomIdsDiffer(events[..|events| - 1]);
      StepGivesOwnIds(Run(events[..|events| - 1]), events[|events| - 1]);
    }
  }

  // ---- When an album is sent ----

  predicate OthersReady(items: seq<Item>, at: nat) {
    forall i :: 0 <= i < |items| && i != at ==> items[i].media != NoMedia
  }

  predicate OtherLive(items: seq<Item>, at: nat, live: set<MsgId>) {
    exists i :: 0 <= i < |items| && i != at && items[i].msgId in live
  }

  /** The last media that was missing has been uploaded, or the last item without media goes and a message is left. */
  predicate SendsNow(s: State, event: Event, group: GroupId) {
    match event
    case DoUploadDone(msgId, _, _) =>
      && msgId in s.live && msgId in s.uploading && HasMessage(s, msgId) && s.groupOf[msgId] == group
      && var items := s.albums[group].items; OthersReady(items, FindMessage(items, msgId))
    case DoCancel(msgId, _) =>
      && CompletesByCancel(s, msgId, group)
      && var items := s.albums[group].items; OtherLive(items, FindMessage(items, msgId), s.live)
    case _ => false
  }

  /** An item of an album that was not sent goes, and all others have media. */
  predicate CompletesByCancel(s: State, msgId: MsgId, group: GroupId) {
    && msgId in s.live && HasMessage(s, msgId) && s.groupOf[msgId] == group && !s.albums[group].sent
    && var items := s.albums[group].items; OthersReady(items, FindMessage(items, msgId))
  }

  /** What may be paid for a request is the lesser of its cost and what was approved. */
  predicate PaysFor(paid: int, cost: int, approved: int) {
    paid <= cost && paid <= approved && (paid == cost || paid == approved)
  }

  function StarsOf(event: Event): nat {
    match event
    case DoUploadDone(_, _, stars) => stars
    case DoCancel(_, stars) => stars
    case _ => 0
  }

  /** One request more, for the album, which is on the network and pays what may be paid. */
  ghost predicate GoesOut(s: State, s': State, group: GroupId, stars: nat) {
    && group in s.albums && |s'.log| == |s.log| + 1 && s'.log[..|s.log|] == s.log
    && var request := s'.log[|s.log|];
    && request.group == group
    && PaysFor(request.starsPaid, if request.kind == Multi then stars * |request.medias| else stars,
         s.albums[group].starsApproved)
    && (exists id: nat :: id !in s.inFlight && s'.inFlight == s.inFlight[id := request])
    && if request.kind == Single then group !in s'.albums
       else
         && group in s'.albums && s'.albums[group].sent
         && s'.albums[group].starsApproved == s.albums[group].starsApproved - request.starsPaid
  }

  ghost predicate NothingGoesOut(s: State, s': State) {
    s'.log == s.log && s'.inFlight.Keys <= s.inFlight.Keys
  }

  predicate Sendable(album: SendingAlbum, live: set<MsgId>) {
    !album.sent && album.items != [] && AllReady(album.items) && SomeLive(album.items, live)
  }

  predicate Droppable(album: SendingAlbum, live: set<MsgId>) {
    !album.sent && AllReady(album.items) && !SomeLive(album.items, live)
  }

  lemma LookingIs(s: State, group: GroupId, stars: nat)
    requires group in s.albums
    ensures var looked, album := s.(stalled := s.stalled - {group}), s.albums[group];
      var request := RequestFor(group, album, stars);
      var marked := Marked(looked, group, request);
      SendIfReady(s, group, stars)
      == if Sendable(album, s.live) then (if request.kind == Single then Forgotten(marked, group) else marked)
         else if Droppable(album, s.live) then Forgotten(looked, group)
         else looked
  {
    var album := s.albums[group];
    assert album.items == [] ==> AllReady(album.items) && !SomeLive(album.items, s.live);
    RequestIsFor(group, album, stars);
    hide AllReady, SomeLive, RequestFor;
  }

  lemma RequestPays(group: GroupId, album: SendingAlbum, stars: nat)
    ensures var request := RequestFor(group, album, stars);
      PaysFor(request.starsPaid, if request.kind == Multi then stars * |request.medias| else stars, album.starsApproved)
  {
    assert |Medias(album.items)| == |album.items|;
  }

  lemma LookingSends(s: State, group: GroupId, stars: nat)
    requires Core(s) && group in s.albums
    ensures var album, s' := s.albums[group], SendIfReady(s, group, stars);
      if Sendable(album, s.live) then GoesOut(s, s', group, stars)
      else NothingGoesOut(s, s') && (group !in s'.albums <==> Droppable(album, s.live))
  {
    LookingIs(s, group, stars);
    RequestIsFor(group, s.albums[group], stars);
    RequestPays(group, s.albums[group], stars);
    assert s.nextId !in s.inFlight;
    hide Core, Sendable, Droppable, RequestFor, SendIfReady, PaysFor;
    var request, s' := RequestFor(group, s.albums[group], stars), SendIfReady(s, group, stars);
    if Sendable(s.albums[group], s.live) {
      assert s'.log == s.log + [request] && s'.inFlight == s.inFlight[s.nextId := request];
    }
  }

  lemma FillingMakesReady(items: seq<Item>, at: nat, item: Item)
    requires at < |items| && item.media != NoMedia
    ensures AllReady(items[at := item]) <==> OthersReady(items, at)
  {
    assert forall i :: 0 <= i < |items| && i != at ==> items[at := item][i] == items[i];
  }

  lemma FilledIsReady(s: State, msgId: MsgId, media: nat)
    requires HasMessage(s, msgId) && msgId in s.live && !s.albums[s.groupOf[msgId]].sent
    ensures var group, f := s.groupOf[msgId], Filled(s, msgId, media);
      && group in f.albums
      && (Sendable(f.albums[group], f.live)
          <==> OthersReady(s.albums[group].items, FindMessage(s.albums[group].items, msgId)))
      && !Droppable(f.albums[group], f.live)
  {
    var group, f := s.groupOf[msgId], Filled(s, msgId, media);
    var at := FindMessage(s.albums[group].items, msgId);
    FillingMakesReady(s.albums[group].items, at, f.albums[group].items[at]);
    assert f.albums[group].items[at].msgId in f.live;
    assert SomeLive(f.albums[group].items, f.live);
    hide AllReady, OthersReady, FindMessage, SomeLive;
  }

  /** The album of a live message that is being uploaded, as the end of the upload leaves it. */
  lemma UploadedIsLookedAt(s: State, msgId: MsgId, media: nat)
    requires Inv(s) && msgId in s.uploading && msgId in s.live
    ensures HasMessage(s, msgId)
    ensures var group, f := s.groupOf[msgId], Filled(s, msgId, media);
      && Core(f) && SameNetwork(s, f, group)
      && (Sendable(f.albums[group], f.live)
          <==> OthersReady(s.albums[group].items, FindMessage(s.albums[group].items, msgId)))
      && !Droppable(f.albums[group], f.live)
  {
    hide Inv, Core, OthersReady, FindMessage, Sendable, Droppable;
    UploadingHasMessage(s, msgId) by { InvIsCore(s); }
    FilledIsReady(s, msgId, media);
    FillingKeeps(s, msgId, media) by { InvIsCore(s); }
  }

  /** Before the album is looked at nothing has gone out. */
  ghost predicate SameNetwork(s: State, f: State, group: GroupId) {
    && f.log == s.log && f.inFlight == s.inFlight && f.albums.Keys == s.albums.Keys
    && group in s.albums && f.albums[group].starsApproved == s.albums[group].starsApproved
  }

  lemma GoesOutFrom(s: State, f: State, s': State, group: GroupId, stars: nat)
    requires SameNetwork(s, f, group)
    ensures GoesOut(s, s', group, stars) <==> GoesOut(f, s', group, stars)
    ensures NothingGoesOut(s, s') <==> NothingGoesOut(f, s')
  {
    hide PaysFor;
  }

  lemma LookingAfter(s: State, f: State, group: GroupId, stars: nat)
    requires Core(f) && SameNetwork(s, f, group)
    ensures var s' := SendIfReady(f, group, stars);
      && s'.albums.Keys + {group} == s.albums.Keys
      && (Sendable(f.albums[group], f.live) ==> GoesOut(s, s', group, stars))
      && (!Sendable(f.albums[group], f.live) ==>
           NothingGoesOut(s, s') && (group !in s'.albums <==> Droppable(f.albums[group], f.live)))
  {
    LookingSends(f, group, stars);
    LookingKeepsOthers(f, group, stars);
    hide Core, SendIfReady, Sendable, Droppable;
    GoesOutFrom(s, f, SendIfReady(f, group, stars), group, stars);
    hide GoesOut, NothingGoesOut;
  }

  lemma UploadSendsIff(s: State, msgId: MsgId, media: nat, stars: nat)
    requires Inv(s) && msgId in s.uploading && msgId in s.live
    ensures HasMessage(s, msgId)
    ensures var event, group := DoUploadDone(msgId, media, stars), s.groupOf[msgId];
      var s' := UploadDone(s, msgId, media, stars);
      && s'.albums.Keys + {group} == s.albums.Keys
      && if SendsNow(s, event, group) then GoesOut(s, s', group, stars) else NothingGoesOut(s, s') && group in s'.albums
  {
    hide Inv, Core, Sendable, Droppable, OthersReady, FindMessage, SendIfReady, GoesOut, NothingGoesOut, Filled,
      SameNetwork;
    UploadedIsLookedAt(s, msgId, media);
    var group, f := s.groupOf[msgId], Filled(s, msgId, media);
    LookingAfter(s, f, group, stars);
  }

  lemma ErasingMakesReady(items: seq<Item>, at: nat)
    requires at < |items|
    ensures AllReady(Erase(items, at)) <==> OthersReady(items, at)
  {
    forall i | 0 <= i < |items| && i != at
      ensures var k := if i < at then i else i - 1; 0 <= k < |items| - 1 && Erase(items, at)[k] == items[i]
    {
      ErasedAt(items, at, i);
    }
    assert forall k :: 0 <= k < |items| - 1 ==> Erase(items, at)[k] == items[if k < at then k else k + 1];
  }

  lemma LeftIsLive(items: seq<Item>, at: nat, live: set<MsgId>)
    requires at < |items| && items[at].msgId in live && 0 !in live && Distinct(items)
    ensures SomeLive(Erase(items, at), live - {items[at].msgId}) <==> OtherLive(items, at, live)
  {
    var left, rest := Erase(items, at), live - {items[at].msgId};
    if OtherLive(items, at, live) {
      var i :| 0 <= i < |items| && i != at && items[i].msgId in live;
      ErasedAt(items, at, i);
      assert left[if i < at then i else i - 1].msgId in rest;
    }
    if SomeLive(left, rest) {
      var k :| 0 <= k < |left| && left[k].msgId in rest;
      var i := if k < at then k else k + 1;
      assert left[k] == items[i] && items[i].msgId in live;
    }
  }

  lemma AlbumIsDistinct(s: State, msgId: MsgId)
    requires Core(s) && msgId in s.live && HasMessage(s, msgId)
    ensures Distinct(s.albums[s.groupOf[msgId]].items) && 0 !in s.live
  {
    var group := s.groupOf[msgId];
    assert AlbumOk(s, group, s.albums[group]);
  }

  /** The album of a live message, once the item of the message is gone. */
  lemma ErasedIsLookedAt(s: State, msgId: MsgId)
    requires Inv(s) && msgId in s.live && HasMessage(s, msgId)
    ensures var group := s.groupOf[msgId];
      var items := s.albums[group].items;
      var at := FindMessage(items, msgId);
      var e := Erased(s, group, at);
      && Core(e) && SameNetwork(s, e, group)
      && (Sendable(e.albums[group], e.live)
          <==> CompletesByCancel(s, msgId, group) && OtherLive(items, at, s.live))
      && (Droppable(e.albums[group], e.live)
          <==> CompletesByCancel(s, msgId, group) && !OtherLive(items, at, s.live))
  {
    var group := s.groupOf[msgId];
    var items := s.albums[group].items;
    var at := FindMessage(items, msgId);
    AlbumIsDistinct(s, msgId);
    LeftIsLive(items, at, s.live);
    ErasingMakesReady(items, at);
    ErasingKeeps(s, group, at);
    assert SomeLive(Erase(items, at), s.live - {msgId}) ==> Erase(items, at) != [];
    hide Inv, Core, AllReady, OthersReady, SomeLive, OtherLive, FindMessage, Erase;
  }

  lemma CancelSendsIff(s: State, msgId: MsgId, stars: nat)
    requires Inv(s) && msgId in s.live && HasMessage(s, msgId)
    ensures var event, s', group := DoCancel(msgId, stars), Cancelled(s, msgId, stars), s.groupOf[msgId];
      && s'.albums.Keys + {group} == s.albums.Keys
      && if SendsNow(s, event, group) then GoesOut(s, s', group, stars)
         else NothingGoesOut(s, s') && (group !in s'.albums <==> CompletesByCancel(s, msgId, group))
  {
    hide Inv, Core, Sendable, Droppable, CompletesByCancel, FindMessage, OtherLive, SendIfReady, GoesOut,
      NothingGoesOut, Erased, Cancelled, SameNetwork;
    ErasedIsLookedAt(s, msgId);
    CancelLooks(s, msgId, stars);
    var group := s.groupOf[msgId];
    var e := Erased(s, group, FindMessage(s.albums[group].items, msgId));
    LookingAfter(s, e, group, stars);
  }

  lemma CancelLooks(s: State, msgId: MsgId, stars: nat)
    requires HasMessage(s, msgId)
    ensures var group := s.groupOf[msgId];
      var e := Erased(s, group, FindMessage(s.albums[group].items, msgId));
      group in e.albums && Cancelled(s, msgId, stars) == SendIfReady(e, group, stars)
  {
    hide FindMessage, Erase;
  }

  lemma LookingKeepsOthers(s: State, group: GroupId, stars: nat)
    requires group in s.albums
    ensures SendIfReady(s, group, stars).albums.Keys + {group} == s.albums.Keys
  {
    LookingIs(s, group, stars);
    hide SendIfReady, Sendable, Droppable, RequestFor;
  }

  /** The answer after which an album is not registered any more. */
  predicate Ends(s: State, event: Event, group: GroupId) {
    match event
    case DoSendDone(id) => id in s.inFlight && s.inFlight[id].group == group && s.inFlight[id].kind != Single
    case DoSendFail(id) => id in s.inFlight && s.inFlight[id].group == group && s.inFlight[id].kind == Multi
    case _ => false
  }

  lemma StepSendsIff(s: State, event: Event, group: GroupId)
    requires Inv(s)
    ensures SendsNow(s, event, group) ==> GoesOut(s, Step(s, event), group, StarsOf(event))
    ensures NothingGoesOut(s, Step(s, event)) || exists g: GroupId :: SendsNow(s, event, g)
    ensures group in s.albums && !SendsNow(s, event, group) ==>
      (group !in Step(s, event).albums
       <==> (event.DoCancel? && CompletesByCancel(s, event.msgId, group)) || Ends(s, event, group))
  {
    hide Inv, Step, GoesOut, NothingGoesOut, CompletesByCancel, HasMessage;
    match event
    case DoUploadDone(msgId, media, stars) => UploadStepSendsIff(s, msgId, media, stars, group);
    case DoCancel(msgId, stars) => CancelStepSendsIff(s, msgId, stars, group);
    case _ => OtherEventsSendNothing(s, event, group);
  }

  lemma UploadStepSendsIff(s: State, msgId: MsgId, media: nat, stars: nat, group: GroupId)
    requires Inv(s)
    ensures var event := DoUploadDone(msgId, media, stars);
      && (SendsNow(s, event, group) ==> GoesOut(s, Step(s, event), group, stars))
      && (NothingGoesOut(s, Step(s, event)) || exists g: GroupId :: SendsNow(s, event, g))
      && (group in s.albums && !SendsNow(s, event, group) ==> group in Step(s, event).albums)
  {
    hide Inv, OthersReady, FindMessage, UploadDone, GoesOut;
    StepKeeps(s, DoUploadDone(msgId, media, stars));
    if msgId in s.uploading && msgId in s.live {
      UploadSendsIff(s, msgId, media, stars);
      hide NothingGoesOut;
    } else if msgId in s.uploading {
      LateUploadIs(s, msgId, media, stars);
    }
  }

  lemma CancelStepSendsIff(s: State, msgId: MsgId, stars: nat, group: GroupId)
    requires Inv(s)
    ensures var event := DoCancel(msgId, stars);
      && (SendsNow(s, event, group) ==> GoesOut(s, Step(s, event), group, stars))
      && (NothingGoesOut(s, Step(s, event)) || exists g: GroupId :: SendsNow(s, event, g))
      && (group in s.albums && !SendsNow(s, event, group) ==>
           (group !in Step(s, event).albums <==> CompletesByCancel(s, msgId, group)))
  {
    hide Inv, OtherLive, OthersReady, FindMessage, Cancelled, GoesOut, NothingGoesOut;
    StepKeeps(s, DoCancel(msgId, stars));
    if msgId in s.live {
      LiveHasMessage(s, msgId) by { InvIsCore(s); }
      if s.groupOf[msgId] in s.albums {
        CancelSendsIff(s, msgId, stars);
      } else {
        LateCancelSendsNothing(s, msgId, stars);
      }
    } else {
      NothingGoesOutByItself(s);
    }
  }

  lemma NothingGoesOutByItself(s: State)
    ensures NothingGoesOut(s, s)
  {
  }

  lemma LateCancelSendsNothing(s: State, msgId: MsgId, stars: nat)
    requires msgId in s.groupOf && s.groupOf[msgId] !in s.albums
    ensures var s' := Cancelled(s, msgId, stars); NothingGoesOut(s, s') && s'.albums == s.albums
  {
    LateCancelIs(s, msgId, stars);
  }

  lemma OtherEventsSendNothing(s: State, event: Event, group: GroupId)
    requires !event.DoUploadDone? && !event.DoCancel?
    ensures !SendsNow(s, event, group) && NothingGoesOut(s, Step(s, event))
    ensures group in s.albums ==> (group !in Step(s, event).albums <==> Ends(s, event, group))
  {
    hide FindMessage, FindTask, Messages, TasksOf, NewItems, NewTasks, Erase;
  }

  lemma LateUploadIs(s: State, msgId: MsgId, media: nat, stars: nat)
    requires msgId !in s.live
    ensures UploadDone(s, msgId, media, stars) == s.(uploading := s.uploading - {msgId})
  {
  }

  lemma LateCancelIs(s: State, msgId: MsgId, stars: nat)
    requires msgId in s.groupOf && s.groupOf[msgId] !in s.albums
    ensures Cancelled(s, msgId, stars) == s.(live := s.live - {msgId})
  {
  }

  /**
   * In every run a request for an album goes out if and only if the event brings the last
   * media that was missing, or destroys an item while all others have media and one of
   * their messages is there.  Nothing goes out otherwise.
   */
  lemma SentIff(events: seq<Event>, event: Event, group: GroupId)
    ensures var s := Run(events); var s' := Step(s, event);
      && (SendsNow(s, event, group) <==> GoesOut(s, s', group, StarsOf(event)))
      && (NothingGoesOut(s, s') <==> forall g: GroupId :: !SendsNow(s, event, g))
  {
    EveryRunKeeps(events);
    var s := Run(events);
    hide Run, Inv, Step, SendsNow;
    StepSendsIff(s, event, group);
    forall g: GroupId ensures SendsNow(s, event, g) ==> GoesOut(s, Step(s, event), g, StarsOf(event)) {
      StepSendsIff(s, event, g);
    }
  }

  /**
   * An album that is not sent then leaves the registry if and only if its last message, or its
   * last item, is destroyed while nothing is missing, or if it is answered.
   */
  lemma ForgottenIff(events: seq<Event>, event: Event, group: GroupId)
    requires group in Run(events).albums && !SendsNow(Run(events), event, group)
    ensures var s := Run(events);
      group !in Step(s, event).albums
      <==> (event.DoCancel? && CompletesByCancel(s, event.msgId, group)) || Ends(s, event, group)
  {
    EveryRunKeeps(events);
    hide *;
    StepSendsIff(Run(events), event, group);
  }

  // ---- Albums that are never sent ----

  /** A registered album that is complete and was not sent. */
  predicate Stuck(s: State, group: GroupId) {
    group in s.albums && Complete(s.albums[group])
  }

  lemma StuckAreStalled(s: State, group: GroupId)
    requires Inv(s)
    ensures Stuck(s, group) <==> group in s.stalled
  {
    hide Core, Complete;
  }

  /** The event finds the album with media for every file but one that cannot be prepared, or it has no files at all. */
  predicate Stalls(s: State, event: Event, group: GroupId) {
    match event
    case DoNewAlbum(count, _, _) => count == 0 && group == s.nextId
    case DoPrepareFail(taskId) =>
      && taskId in s.preparing && HasTask(s, taskId) && s.taskGroup[taskId] == group
      && var items := s.albums[group].items; OthersReady(items, FindTask(items, taskId))
    case _ => false
  }

  /** A message of the album is destroyed, after which the album is looked at again. */
  predicate LooksAgain(s: State, event: Event, group: GroupId) {
    && event.DoCancel? && event.msgId in s.live
    && event.msgId in s.groupOf && s.groupOf[event.msgId] == group
  }

  lemma FailingToPrepareStalls(s: State, taskId: TaskId, group: GroupId)
    requires Inv(s) && taskId in s.preparing
    ensures HasTask(s, taskId)
    ensures group in RemoveFromAlbum(s, taskId).stalled
      <==> Stalls(s, DoPrepareFail(taskId), group) || group in s.stalled
  {
    PreparingHasTask(s, taskId);
    var items := s.albums[s.taskGroup[taskId]].items;
    ErasingMakesReady(items, FindTask(items, taskId));
    hide Inv, AllReady, OthersReady, FindTask, Erase;
  }

  lemma UploadStallsNothing(s: State, msgId: MsgId, media: nat, stars: nat)
    requires Inv(s) && msgId in s.uploading
    ensures msgId in s.live ==> HasMessage(s, msgId)
    ensures UploadDone(s, msgId, media, stars).stalled == s.stalled
  {
    if msgId in s.live {
      UploadingHasMessage(s, msgId);
      UnfinishedUploadIsMissing(s, msgId);
      StuckAreStalled(s, s.groupOf[msgId]);
      SendIfReadyIs(Filled(s, msgId, media), s.groupOf[msgId], stars);
    }
    hide Inv, AllReady, SendIfReady, FindMessage;
  }

  lemma CancellingLooksAgain(s: State, msgId: MsgId, stars: nat)
    requires Inv(s) && msgId in s.live
    ensures msgId in s.groupOf && (s.groupOf[msgId] in s.albums ==> HasMessage(s, msgId))
    ensures Cancelled(s, msgId, stars).stalled == s.stalled - {s.groupOf[msgId]}
  {
    LiveHasMessage(s, msgId);
    var group := s.groupOf[msgId];
    StuckAreStalled(s, group);
    if group in s.albums {
      SendIfReadyIs(Erased(s, group, FindMessage(s.albums[group].items, msgId)), group, stars);
    }
    hide Inv, AllReady, SendIfReady, FindMessage, Erase, Complete;
  }

  lemma StalledIff(s: State, event: Event, group: GroupId)
    requires Inv(s)
    ensures group in Step(s, event).stalled
      <==> Stalls(s, event, group) || (group in s.stalled && !LooksAgain(s, event, group))
  {
    hide Inv, OthersReady, FindMessage, FindTask, TasksOf, UploadDone, Cancelled, RemoveFromAlbum;
    StepKeeps(s, event);
    match event
    case DoPrepareFail(taskId) => if taskId in s.preparing { FailingToPrepareStalls(s, taskId, group); }
    case DoUploadDone(msgId, media, stars) =>
      if msgId in s.uploading { UploadStallsNothing(s, msgId, media, stars); }
    case DoCancel(msgId, stars) => if msgId in s.live { CancellingLooksAgain(s, msgId, stars); }
    case _ =>
  }

  /**
   * In every run, an event leaves an album complete and unsent if and only if it takes
   * out a file that cannot be prepared while all others have media, or registers an album
   * without files, or the album was so before and none of its messages was destroyed.
   */
  lemma StuckIff(events: seq<Event>, event: Event, group: GroupId)
    ensures var s := Run(events);
      Stuck(Step(s, event), group) <==> Stalls(s, event, group) || (Stuck(s, group) && !LooksAgain(s, event, group))
  {
    EveryRunKeeps(events);
    hide *;
    var s := Run(events);
    StepKeeps(s, event);
    StuckAreStalled(s, group);
    StuckAreStalled(Step(s, event), group);
    StalledIff(s, event, group);
  }

  /** Such an album is never sent unless one of its messages is destroyed. */
  lemma {:induction false} StuckForGood(events: seq<Event>, later: seq<Event>, group: GroupId)
    requires Stuck(Run(events), group)
    requires forall i :: 0 <= i < |later| ==> !LooksAgain(Run(events + later[..i]), later[i], group)
    ensures Stuck(Run(events + later), group)
    decreases |later|
  {
    hide *;
    if later == [] {
      assert events + later == events;
    } else {
      var n := |later| - 1;
      assert forall i :: 0 <= i < n ==> later[..n][..i] == later[..i];
      StuckForGood(events, later[..n], group);
      StuckIff(events + later[..n], later[n], group);
      assert events + later == events + later[..n] + [later[n]];
      RunGoesOn(events + later[..n], later[n]);
    }
  }

  lemma RunGoesOn(events: seq<Event>, event: Event)
    ensures Run(events + [event]) == Step(Run(events), event)
  {
    hide Step;
    assert (events + [event])[..|events|] == events;
  }

  ghost predicate NothingFailsToPrepare(events: seq<Event>) {
    forall i :: 0 <= i < |events| ==> !events[i].DoPrepareFail? && (events[i].DoNewAlbum? ==> events[i].count > 0)
  }

  /** If every file can be prepared, an album whose files all have media has been sent or forgotten. */
  lemma {:induction false} OnlyUnpreparedFilesStall(events: seq<Event>, group: GroupId)
    requires NothingFailsToPrepare(events)
    ensures !Stuck(Run(events), group)
    decreases |events|
  {
    hide Step, Stuck, LooksAgain;
    if events != [] {
      OnlyUnpreparedFilesStall(events[..|events| - 1], group);
      StuckIff(events[..|events| - 1], events[|events| - 1], group);
    } else {
      hide *;
      NothingIsStuckAtFirst(group);
    }
  }

  lemma NothingIsStuckAtFirst(group: GroupId)
    ensures !Stuck(Run([]), group)
  {
  }

  // ---- No album is lost ----

  /**
   * A file whose item is in an album that was not sent is being prepared, or it has a
   * message, which is uploaded or being so.
   */
  ghost predicate ItemProgresses(item: Item, preparing: set<TaskId>, uploading: set<MsgId>, live: set<MsgId>) {
    if item.msgId == 0 then item.taskId in preparing
    else item.msgId in live && (item.media == NoMedia ==> item.msgId in uploading)
  }

  ghost predicate AlbumProgresses(
    album: SendingAlbum, preparing: set<TaskId>, uploading: set<MsgId>, live: set<MsgId>)
  {
    album.sent || forall i :: 0 <= i < |album.items| ==> ItemProgresses(album.items[i], preparing, uploading, live)
  }

  ghost predicate Progresses(s: State) {
    forall g :: g in s.albums ==> AlbumProgresses(s.albums[g], s.preparing, s.uploading, s.live)
  }

  /** Every album there ever was is registered, or was sent, or has none of its files left. */
  ghost predicate Accounted(s: State) {
    forall g :: g in s.original ==> g in s.albums || Sends(s.log, g) > 0 || Left(s.original[g], s.removed) == []
  }

  /** Nothing that an album needs is given up, but for one file and one message of another album. */
  lemma OtherProgresses(s: State, s': State, g: GroupId, task: TaskId, msgId: MsgId)
    requires g in s.albums && AlbumOk(s, g, s.albums[g])
    requires AlbumProgresses(s.albums[g], s.preparing, s.uploading, s.live)
    requires task in s.taskGroup ==> s.taskGroup[task] != g
    requires msgId in s.groupOf ==> s.groupOf[msgId] != g
    requires s.preparing <= s'.preparing + {task}
    requires s.uploading <= s'.uploading + {msgId} && s.live <= s'.live + {msgId}
    ensures AlbumProgresses(s.albums[g], s'.preparing, s'.uploading, s'.live)
  {
    var items := s.albums[g].items;
    assert forall i :: 0 <= i < |items| ==> ItemKnown(items[i], g, s.groupOf, s.taskGroup);
    hide Distinct, Recorded, TasksAre, AllReady;
  }

  lemma OthersProgress(s: State, s': State, group: GroupId, task: TaskId, msgId: MsgId)
    requires AlbumsOk(s) && Progresses(s)
    requires forall g :: g in s'.albums && g != group ==> g in s.albums && s'.albums[g] == s.albums[g]
    requires task in s.taskGroup ==> s.taskGroup[task] == group
    requires msgId in s.groupOf ==> s.groupOf[msgId] == group
    requires s.preparing <= s'.preparing + {task}
    requires s.uploading <= s'.uploading + {msgId} && s.live <= s'.live + {msgId}
    requires group in s'.albums ==> AlbumProgresses(s'.albums[group], s'.preparing, s'.uploading, s'.live)
    ensures Progresses(s')
  {
    hide AlbumOk, AlbumProgresses;
    forall g | g in s'.albums && g != group
      ensures AlbumProgresses(s'.albums[g], s'.preparing, s'.uploading, s'.live)
    {
      assert AlbumOk(s, g, s.albums[g]);
      OtherProgresses(s, s', g, task, msgId);
    }
  }

  /** The items of an album have files and messages of their own. */
  lemma ItemsAreKnown(s: State, group: GroupId, i: nat, at: nat)
    requires AlbumsOk(s) && group in s.albums && i < |s.albums[group].items| && at < |s.albums[group].items|
    ensures var items := s.albums[group].items;
      && ItemKnown(items[i], group, s.groupOf, s.taskGroup) && ItemKnown(items[at], group, s.groupOf, s.taskGroup)
      && (i != at ==>
           items[i].taskId != items[at].taskId && (items[i].msgId != 0 ==> items[i].msgId != items[at].msgId))
  {
    assert AlbumOk(s, group, s.albums[group]);
    hide AlbumsOk, Recorded, TasksAre, AllReady;
  }

  lemma ConfirmedProgresses(s: State, group: GroupId, at: nat)
    requires Core(s) && Progresses(s) && Unconfirmed(s, group, at)
    ensures Progresses(Confirmed(s, group, at))
  {
    var s', album := Confirmed(s, group, at), s.albums[group];
    hide LiveListed, UploadsWait, TasksWait, SentOnce, NetworkWasSent, AlbumsOk;
    ItemsAreKnown(s, group, at, at);
    forall i | 0 <= i < |album.items|
      ensures ItemProgresses(s'.albums[group].items[i], s'.preparing, s'.uploading, s'.live)
    {
      ItemsAreKnown(s, group, i, at);
      assert ItemProgresses(album.items[i], s.preparing, s.uploading, s.live);
    }
    OthersProgress(s, s', group, album.items[at].taskId, 0);
  }

  lemma FilledProgresses(s: State, msgId: MsgId, media: nat)
    requires Core(s) && Progresses(s) && HasMessage(s, msgId) && !s.albums[s.groupOf[msgId]].sent
    ensures Progresses(Filled(s, msgId, media))
  {
    var group := s.groupOf[msgId];
    var s', album := Filled(s, msgId, media), s.albums[group];
    var at := FindMessage(album.items, msgId);
    hide LiveListed, UploadsWait, TasksWait, SentOnce, NetworkWasSent, AlbumsOk, Numbered, FindMessage;
    ItemsAreKnown(s, group, at, at);
    forall i | 0 <= i < |album.items|
      ensures ItemProgresses(s'.albums[group].items[i], s'.preparing, s'.uploading, s'.live)
    {
      ItemsAreKnown(s, group, i, at);
      assert ItemProgresses(album.items[i], s.preparing, s.uploading, s.live);
    }
    assert forall t :: t in s.preparing ==> t in s'.preparing;
    OthersProgress(s, s', group, album.items[at].taskId, msgId);
  }

  lemma ErasedProgresses(s: State, group: GroupId, at: nat)
    requires Core(s) && Progresses(s) && group in s.albums && at < |s.albums[group].items|
    ensures Progresses(Erased(s, group, at))
  {
    var s', album := Erased(s, group, at), s.albums[group];
    hide LiveListed, UploadsWait, TasksWait, SentOnce, NetworkWasSent, AlbumsOk;
    ItemsAreKnown(s, group, at, at);
    if !album.sent {
      forall k | 0 <= k < |album.items| - 1
        ensures ItemProgresses(s'.albums[group].items[k], s'.preparing, s'.uploading, s'.live)
      {
        var i := if k < at then k else k + 1;
        ErasedAt(album.items, at, i);
        ItemsAreKnown(s, group, i, at);
        assert ItemProgresses(album.items[i], s.preparing, s.uploading, s.live);
      }
    }
    OthersProgress(s, s', group, album.items[at].taskId, album.items[at].msgId);
  }

  /** Removing more files leaves no more of them. */
  lemma {:induction false} LeftShrinks(tasks: seq<TaskId>, removed: set<TaskId>, task: TaskId)
    ensures Left(tasks, removed) == [] ==> Left(tasks, removed + {task}) == []
  {
    if tasks != [] {
      LeftShrinks(tasks[1..], removed, task);
    }
  }

  lemma ErasedIsAccounted(s: State, group: GroupId, at: nat)
    requires Accounted(s) && group in s.albums && at < |s.albums[group].items|
    ensures Accounted(Erased(s, group, at))
  {
    var s', task := Erased(s, group, at), s.albums[group].items[at].taskId;
    hide Left, Sends, Erase;
    forall g | g in s.original ensures Left(s.original[g], s.removed) == [] ==> Left(s'.original[g], s'.removed) == [] {
      LeftShrinks(s.original[g], s.removed, task);
    }
  }

  lemma EmptyHasNoFilesLeft(s: State, group: GroupId)
    requires AlbumsOk(s) && group in s.albums && s.albums[group].items == []
    ensures group in s.original && Left(s.original[group], s.removed) == []
  {
    assert AlbumOk(s, group, s.albums[group]);
    assert |Tasks(s.albums[group].items)| == 0;
  }

  lemma ReadyIsLive(s: State, group: GroupId)
    requires AlbumsOk(s) && Progresses(s) && group in s.albums && !s.albums[group].sent
    requires s.albums[group].items != [] && AllReady(s.albums[group].items)
    ensures SomeLive(s.albums[group].items, s.live)
  {
    var items := s.albums[group].items;
    ItemsAreKnown(s, group, 0, 0);
    assert items[0].media != NoMedia && ItemProgresses(items[0], s.preparing, s.uploading, s.live);
    hide AlbumsOk;
  }

  /** An album that progresses and is dropped has no files left. */
  lemma DroppedIsEmpty(s: State, group: GroupId)
    requires AlbumsOk(s) && Progresses(s) && group in s.albums && Droppable(s.albums[group], s.live)
    ensures group in s.original && Left(s.original[group], s.removed) == []
  {
    hide AlbumsOk, Progresses, AllReady, SomeLive;
    if s.albums[group].items != [] {
      ReadyIsLive(s, group);
    } else {
      EmptyHasNoFilesLeft(s, group);
    }
  }

  lemma LookedAtKeepsOn(s: State, s': State, group: GroupId)
    requires Progresses(s) && Accounted(s)
    requires s'.albums.Keys + {group} == s.albums.Keys
    requires forall g :: g in s'.albums && g != group ==> s'.albums[g] == s.albums[g]
    requires group in s'.albums ==> AlbumProgresses(s'.albums[group], s.preparing, s.uploading, s.live)
    requires s'.preparing == s.preparing && s'.uploading == s.uploading && s'.live == s.live
    requires s'.original == s.original && s'.removed == s.removed
    requires forall g: GroupId :: Sends(s'.log, g) >= Sends(s.log, g)
    requires group in s.original && group !in s'.albums ==>
      Sends(s'.log, group) > 0 || Left(s.original[group], s.removed) == []
    ensures Progresses(s') && Accounted(s')
  {
    hide AlbumProgresses, Sends, Left;
  }

  lemma LoggedSends(log: seq<Sent>, sent: Sent)
    ensures forall g: GroupId :: Sends(log + [sent], g) >= Sends(log, g)
    ensures Sends(log + [sent], sent.group) > 0
  {
    forall g: GroupId ensures Sends(log + [sent], g) == Sends(log, g) + if sent.group == g then 1 else 0 {
      SendsAppend(log, sent, g);
    }
    hide Sends;
  }

  lemma LookingProgresses(s: State, group: GroupId, stars: nat)
    requires Core(s) && Progresses(s) && Accounted(s) && group in s.albums
    ensures Progresses(SendIfReady(s, group, stars)) && Accounted(SendIfReady(s, group, stars))
  {
    hide LiveListed, UploadsWait, TasksWait, SentOnce, NetworkWasSent, Numbered, AlbumsOk, Progresses, Accounted,
      SendIfReady, RequestFor, Sends, Left, Sendable;
    var s', request := SendIfReady(s, group, stars), RequestFor(group, s.albums[group], stars);
    LookingIs(s, group, stars);
    RequestIsFor(group, s.albums[group], stars);
    if Sendable(s.albums[group], s.live) {
      LoggedSends(s.log, request);
      var sent := s.albums[group].(sent := true);
      if request.kind != Single { SentProgresses(s'.albums[group], s.preparing, s.uploading, s.live); }
      hide AlbumProgresses;
    } else {
      if Droppable(s.albums[group], s.live) { DroppedIsEmpty(s, group); }
      hide Droppable, AlbumProgresses;
      assert AlbumProgresses(s.albums[group], s.preparing, s.uploading, s.live) by { RegisteredProgresses(s, group); }
    }
    LookedAtKeepsOn(s, s', group);
  }

  lemma RegisteredProgresses(s: State, group: GroupId)
    requires Progresses(s) && group in s.albums
    ensures AlbumProgresses(s.albums[group], s.preparing, s.uploading, s.live)
  {
  }

  lemma SentProgresses(album: SendingAlbum, preparing: set<TaskId>, uploading: set<MsgId>, live: set<MsgId>)
    requires album.sent
    ensures AlbumProgresses(album, preparing, uploading, live)
  {
  }

  /** No upload fails, and no message goes without the albums being told. */
  predicate LosesNothing(event: Event) {
    !event.DoUploadFail? && !event.DoVanish?
  }

  ghost predicate NothingIsLost(events: seq<Event>) {
    forall i :: 0 <= i < |events| ==> LosesNothing(events[i])
  }

  ghost predicate KeepsOn(s: State) {
    Progresses(s) && Accounted(s)
  }

  lemma NewAlbumKeepsOn(s: State, count: nat, price: nat, approved: nat)
    requires Inv(s) && KeepsOn(s)
    ensures KeepsOn(NewAlbum(s, count, price, approved))
  {
    var s' := NewAlbum(s, count, price, approved);
    RegisteredAreNumbered(s);
    hide Core, Inv, AlbumProgresses, TasksOf;
    assert AlbumProgresses(s'.albums[s.nextId], s'.preparing, s'.uploading, s'.live) by {
      NewAlbumProgresses(s, count, price, approved);
    }
    forall g | g in s.albums ensures AlbumProgresses(s.albums[g], s'.preparing, s.uploading, s.live) {
      PreparingMoreProgresses(s.albums[g], s.preparing, s'.preparing, s.uploading, s.live);
    }
  }

  lemma NewAlbumProgresses(s: State, count: nat, price: nat, approved: nat)
    ensures var s' := NewAlbum(s, count, price, approved);
      AlbumProgresses(s'.albums[s.nextId], s'.preparing, s'.uploading, s'.live)
  {
  }

  lemma PreparingMoreProgresses(
    album: SendingAlbum, preparing: set<TaskId>, more: set<TaskId>, uploading: set<MsgId>, live: set<MsgId>)
    requires AlbumProgresses(album, preparing, uploading, live) && preparing <= more
    ensures AlbumProgresses(album, more, uploading, live)
  {
  }

  lemma ConfirmKeepsOn(s: State, taskId: TaskId)
    requires Inv(s) && KeepsOn(s) && taskId in s.preparing
    ensures HasTask(s, taskId) && KeepsOn(Confirm(s, taskId))
  {
    PreparingHasTask(s, taskId);
    hide Core, Progresses, FindTask;
    ConfirmedProgresses(s, s.taskGroup[taskId], FindTask(s.albums[s.taskGroup[taskId]].items, taskId));
    hide Unconfirmed, Sends, Left;
  }

  lemma RemoveKeepsOn(s: State, taskId: TaskId)
    requires Inv(s) && KeepsOn(s) && taskId in s.preparing
    ensures HasTask(s, taskId) && KeepsOn(RemoveFromAlbum(s, taskId))
  {
    PreparingHasTask(s, taskId);
    hide Core, FindTask, AllReady, Erase, AlbumProgresses, Unconfirmed, Sends, Left;
    var group := s.taskGroup[taskId];
    var at := FindTask(s.albums[group].items, taskId);
    ErasedProgresses(s, group, at);
    ErasedIsAccounted(s, group, at);
  }

  lemma UploadKeepsOn(s: State, msgId: MsgId, media: nat, stars: nat)
    requires Inv(s) && KeepsOn(s) && msgId in s.uploading
    ensures msgId in s.live ==> HasMessage(s, msgId)
    ensures KeepsOn(UploadDone(s, msgId, media, stars))
  {
    if msgId in s.live {
      UploadedIsLookedAt(s, msgId, media);
      UploadingHasMessage(s, msgId);
      FilledProgresses(s, msgId, media);
      hide Inv, Core, FindMessage, Progresses, SendIfReady, Sends, Left, Sendable, Droppable, OthersReady;
      LookingProgresses(Filled(s, msgId, media), s.groupOf[msgId], stars);
    } else {
      hide Core, Sends, Left;
    }
  }

  lemma CancelKeepsOn(s: State, msgId: MsgId, stars: nat)
    requires Inv(s) && KeepsOn(s) && msgId in s.live
    ensures msgId in s.groupOf && (s.groupOf[msgId] in s.albums ==> HasMessage(s, msgId))
    ensures KeepsOn(Cancelled(s, msgId, stars))
  {
    LiveHasMessage(s, msgId);
    var group := s.groupOf[msgId];
    if group in s.albums {
      var at := FindMessage(s.albums[group].items, msgId);
      ErasingKeeps(s, group, at);
      ErasedProgresses(s, group, at);
      ErasedIsAccounted(s, group, at);
      hide Inv, Core, FindMessage, KeepsOn, SendIfReady, Erased, Accounted, Progresses;
      CancelLooks(s, msgId, stars);
      LookingProgresses(Erased(s, group, at), group, stars);
    } else {
      assert s.nextId !in s.taskGroup;
      hide Inv, LiveListed, UploadsWait, TasksWait, SentOnce, NetworkWasSent, Numbered, AlbumsOk, Progresses, Sends,
        Left;
      OthersProgress(s, s.(live := s.live - {msgId}), group, s.nextId, msgId);
    }
  }

  lemma SentHasSends(s: State, group: GroupId)
    requires Core(s) && group in s.albums && s.albums[group].sent
    ensures Sends(s.log, group) > 0
  {
    hide AlbumsOk, LiveListed, UploadsWait, TasksWait, Sends;
  }

  /** The messages of an album that goes are no other album's. */
  lemma ForgottenMessagesAreOwn(s: State, group: GroupId, g: GroupId)
    requires AlbumsOk(s) && group in s.albums && g in s.albums && g != group && 0 !in s.live
    requires AlbumProgresses(s.albums[g], s.preparing, s.uploading, s.live)
    ensures AlbumProgresses(s.albums[g], s.preparing, s.uploading, s.live - Messages(s.albums[group].items))
  {
    var items, own := s.albums[g].items, s.albums[group].items;
    assert AlbumOk(s, g, s.albums[g]) && AlbumOk(s, group, s.albums[group]);
    assert forall i :: 0 <= i < |items| ==> ItemKnown(items[i], g, s.groupOf, s.taskGroup);
    assert forall i :: 0 <= i < |own| ==> ItemKnown(own[i], group, s.groupOf, s.taskGroup);
    hide Distinct, Recorded, TasksAre, AllReady;
  }

  lemma AnswerKeepsOn(s: State, id: nat)
    requires Inv(s) && KeepsOn(s) && id in s.inFlight
    ensures KeepsOn(SendDone(s, id)) && KeepsOn(SendFail(s, id))
  {
    hide Inv, KeepsOn, Progresses, Accounted, Sends, Messages;
    var group := s.inFlight[id].group;
    if group in s.albums {
      OnNetworkIsSent(s, id) by { InvIsCore(s); }
      SentHasSends(s, group) by { InvIsCore(s); }
      NewMessageIsNew(s);
      ForgettingKeepsOn(s, group, s.inFlight - {id}, s.live);
      ForgettingKeepsOn(s, group, s.inFlight - {id}, s.live - Messages(s.albums[group].items));
    } else {
      assert s.albums - {group} == s.albums;
    }
    OffTheNetworkKeepsOn(s, s.inFlight - {id});
  }

  lemma OffTheNetworkKeepsOn(s: State, inFlight: map<nat, Sent>)
    requires KeepsOn(s)
    ensures KeepsOn(s.(inFlight := inFlight))
  {
    hide AlbumProgresses, Sends, Left;
  }

  lemma ForgettingKeepsOn(s: State, group: GroupId, inFlight: map<nat, Sent>, live: set<MsgId>)
    requires Inv(s) && KeepsOn(s) && group in s.albums && Sends(s.log, group) > 0 && 0 !in s.live
    requires live == s.live || live == s.live - Messages(s.albums[group].items)
    ensures KeepsOn(s.(inFlight := inFlight, albums := s.albums - {group}, live := live))
  {
    hide Inv, Core, AlbumsOk, Sends, Left, Messages, AlbumProgresses;
    forall g | g in s.albums && g != group
      ensures AlbumProgresses(s.albums[g], s.preparing, s.uploading, s.live - Messages(s.albums[group].items))
    {
      AlbumsAreOk(s);
      ForgottenMessagesAreOwn(s, group, g);
    }
  }

  lemma AlbumsAreOk(s: State)
    ensures Inv(s) ==> AlbumsOk(s)
  {
    hide AlbumsOk, Numbered, LiveListed, UploadsWait, TasksWait, SentOnce;
  }

  lemma StepKeepsOn(s: State, event: Event)
    requires Inv(s) && KeepsOn(s) && LosesNothing(event)
    ensures KeepsOn(Step(s, event))
  {
    hide Inv, KeepsOn, NewAlbum, Confirm, RemoveFromAlbum, UploadDone, Cancelled, SendDone, SendFail, AssertsHold;
    StepKeeps(s, event);
    if Enabled(s, event) {
      match event
      case DoNewAlbum(count, price, approved) => NewAlbumKeepsOn(s, count, price, approved);
      case DoConfirm(taskId) => ConfirmKeepsOn(s, taskId);
      case DoPrepareFail(taskId) => RemoveKeepsOn(s, taskId);
      case DoUploadDone(msgId, media, stars) => UploadKeepsOn(s, msgId, media, stars);
      case DoCancel(msgId, stars) => CancelKeepsOn(s, msgId, stars);
      case DoSendDone(id) => AnswerKeepsOn(s, id);
      case DoSendFail(id) => AnswerKeepsOn(s, id);
    }
  }

  lemma {:induction false} EveryRunKeepsOn(events: seq<Event>)
    requires NothingIsLost(events)
    ensures KeepsOn(Run(events))
    decreases |events|
  {
    hide Inv, Step, LosesNothing;
    if events != [] {
      EveryRunKeepsOn(events[..|events| - 1]);
      EveryRunKeeps(events[..|events| - 1]);
      StepKeepsOn(Run(events[..|events| - 1]), events[|events| - 1]);
    }
  }

  /**
   * If no upload fails and no message vanishes, then once no file is being prepared or
   * uploaded every album there ever was has been sent, but for those of which no file is
   * left and those that are stuck.
   */
  lemma AtRestEveryAlbumIsSent(events: seq<Event>, group: GroupId)
    requires NothingIsLost(events) && group in Run(events).original
    requires Run(events).preparing == {} && Run(events).uploading == {}
    ensures var s := Run(events);
      Sends(s.log, group) == 1 || Left(s.original[group], s.removed) == [] || Stuck(s, group)
  {
    EveryRunKeepsOn(events);
    EveryRunKeeps(events);
    hide Run, AlbumsOk, LiveListed, UploadsWait, TasksWait, StalledAre, Sends, Left;
    var s := Run(events);
    if group in s.albums && !s.albums[group].sent {
      var items := s.albums[group].items;
      assert AlbumProgresses(s.albums[group], {}, {}, s.live);
      assert forall i :: 0 <= i < |items| ==> ItemProgresses(items[i], {}, {}, s.live);
    }
  }

  /** An album of two files: the first is uploaded, then the second cannot be prepared. */
  const STALLING := [DoNewAlbum(2, 0, 0), DoConfirm(2), DoUploadDone(4, 7, 0), DoPrepareFail(3)]

  /** All that is left of that album has media, nothing is under way, and it was not sent. */
  lemma UnpreparedFileStallsAlbum()
    ensures var s := Run(STALLING);
      && 1 in s.albums && |s.albums[1].items| == 1 && Complete(s.albums[1])
      && s.log == [] && s.preparing == {} && s.uploading == {} && s.inFlight == map[]
  {
    StallingStarts();
    var s := Run(STALLING[..3]);
    assert STALLING[..4] == STALLING;
    assert Run(STALLING) == Step(s, DoPrepareFail(3));
    assert FindTask(s.albums[1].items, 3) == 1;
  }

  lemma StallingRegisters()
    ensures Run(STALLING[..1]) == NewAlbum(INITIAL, 2, 0, 0)
    ensures var s := Run(STALLING[..1]);
      && s.albums == map[1 := SendingAlbum([Item(2, 0, NoMedia), Item(3, 0, NoMedia)], false, 0, 0)]
      && s.preparing == {2, 3} && s.taskGroup == map[2 := 1, 3 := 1]
  {
    var first := STALLING[..1];
    assert first[..0] == [] && first[0] == DoNewAlbum(2, 0, 0);
    assert Run(first) == Step(Run(first[..0]), first[0]);
    assert TasksOf(1, 2) == map[2 := 1, 3 := 1] by { assert TasksOf(1, 1) == map[2 := 1]; }
    assert NewItems(1, 2) == [Item(2, 0, NoMedia), Item(3, 0, NoMedia)];
  }

  lemma StallingConfirms()
    ensures var s := Run(STALLING[..2]);
      && s.albums == map[1 := SendingAlbum([Item(2, 4, NoMedia), Item(3, 0, NoMedia)], false, 0, 0)]
      && s.preparing == {3} && s.uploading == {4} && s.live == {4} && s.groupOf == map[4 := 1] && s.nextId == 5
      && s.taskGroup == map[2 := 1, 3 := 1] && s.log == [] && s.inFlight == map[]
  {
    StallingRegisters();
    var events, s1 := STALLING[..2], Run(STALLING[..1]);
    assert events[..1] == STALLING[..1] && events[1] == DoConfirm(2);
    assert Run(events) == Step(s1, events[1]);
    hide Run;
    assert FindTask(s1.albums[1].items, 2) == 0;
    assert Confirm(s1, 2).albums[1].items == [Item(2, 4, NoMedia), Item(3, 0, NoMedia)];
  }

  lemma StallingStarts()
    ensures var s := Run(STALLING[..3]);
      && s.albums == map[1 := SendingAlbum([Item(2, 4, Media(7, 5)), Item(3, 0, NoMedia)], false, 0, 0)]
      && s.preparing == {3} && s.uploading == {} && s.taskGroup == map[2 := 1, 3 := 1] && s.log == []
      && s.inFlight == map[]
  {
    StallingConfirms();
    var events := STALLING[..3];
    assert events[..2] == STALLING[..2] && events[2] == DoUploadDone(4, 7, 0);
    var s2 := Run(STALLING[..2]);
    assert FindMessage(s2.albums[1].items, 4) == 0;
    assert HasMessage(s2, 4);
    assert Run(events) == Step(s2, events[2]);
    hide Run;
    var f := Filled(s2, 4, 7);
    assert f.albums[1].items == [Item(2, 4, Media(7, 5)), Item(3, 0, NoMedia)];
    assert f.albums[1].items[1].media == NoMedia;
  }

  // ---- The object that the source updates in place ----

  /** ranges::find over the album's items, by message. */
  method FindAlbumItem(items: seq<Item>, msgId: MsgId) returns (at: nat)
    ensures at == FindMessage(items, msgId)
  {
    at := 0;
    while at < |items| && items[at].msgId != msgId
      invariant at <= |items|
      invariant FindMessage(items, msgId) == at + FindMessage(items[at..], msgId)
    {
      assert items[at..][1..] == items[at + 1..];
      at := at + 1;
    }
  }

  /** The same by task. */
  method FindAlbumTask(items: seq<Item>, taskId: TaskId) returns (at: nat)
    ensures at == FindTask(items, taskId)
  {
    at := 0;
    while at < |items| && items[at].taskId != taskId
      invariant at <= |items|
      invariant FindTask(items, taskId) == at + FindTask(items[at..], taskId)
    {
      assert items[at..][1..] == items[at + 1..];
      at := at + 1;
    }
  }

  /** The loop of sendAlbumIfReady: it gives up at the first item without media, and looks for a message that exists. */
  method CollectMedias(items: seq<Item>, live: set<MsgId>) returns (ready: bool, sample: bool, medias: seq<Media>)
    ensures ready == AllReady(items)
    ensures ready ==> sample == SomeLive(items, live) && medias == Medias(items)
  {
    sample, medias := false, [];
    for i := 0 to |items|
      invariant medias == Medias(items[..i]) && AllReady(items[..i]) && sample == SomeLive(items[..i], live)
    {
      assert items[..i + 1] == items[..i] + [items[i]];
      if items[i].media == NoMedia {
        return false, false, [];
      } else if !sample {
        sample := items[i].msgId in live;
        assert sample ==> items[..i + 1][i].msgId in live;
      } else {
        assert SomeLive(items[..i], live) ==> SomeLive(items[..i + 1], live) by { SomeLiveGrows(items, i, live); }
      }
      medias := medias + [items[i].media];
    }
    assert items[..|items|] == items;
    return true, sample, medias;
  }

  lemma SomeLiveGrows(items: seq<Item>, i: nat, live: set<MsgId>)
    requires i < |items| && SomeLive(items[..i], live)
    ensures SomeLive(items[..i + 1], live)
  {
    var k :| 0 <= k < i && items[..i][k].msgId in live;
    assert items[..i + 1][k].msgId in live;
  }

  /** The loop that gives the album an item for each task. */
  method MakeItems(group: GroupId, count: nat) returns (items: seq<Item>)
    ensures items == NewItems(group, count)
  {
    items := [];
    for i := 0 to count
      invariant items == NewItems(group, i)
    {
      items := items + [Item(group + 1 + i, 0, NoMedia)];
    }
  }

  lemma ErasedIsRegistered(s: State, taskId: TaskId)
    requires HasTask(s, taskId)
    ensures var group := s.taskGroup[taskId];
      var erased := Erased(s, group, FindTask(s.albums[group].items, taskId));
      group in erased.albums && erased.stalled == s.stalled
  {
    hide FindTask;
  }

  lemma FilledIsRegistered(s: State, msgId: MsgId, media: nat)
    requires HasMessage(s, msgId)
    ensures s.groupOf[msgId] in Filled(s, msgId, media).albums
  {
  }

  class ApiWrap {
    var sendingAlbums: map<GroupId, SendingAlbum>
    var live: set<MsgId>
    var preparing: set<TaskId>
    var uploading: set<MsgId>
    var groupOf: map<MsgId, GroupId>
    var taskGroup: map<TaskId, GroupId>
    var nextId: nat
    var inFlight: map<nat, Sent>
    ghost var log: seq<Sent>
    ghost var original: map<GroupId, seq<TaskId>>
    ghost var removed: set<TaskId>
    ghost var uploaded: map<TaskId, Media>
    ghost var stalled: set<GroupId>

    ghost function Abs(): State
      reads this
    {
      State(sendingAlbums, live, preparing, uploading, groupOf, taskGroup, nextId, inFlight, log, original, removed,
        uploaded, stalled)
    }

    constructor ()
      ensures Abs() == INITIAL && Inv(Abs())
    {
      sendingAlbums, live, preparing, uploading := map[], {}, {}, {};
      groupOf, taskGroup, nextId, inFlight := map[], map[], 1, map[];
      log, original, removed, uploaded, stalled := [], map[], {}, map[], {};
    }

    /** Sends the album with one request, which carries all its media. */
    method SendMedias(group: GroupId, kind: Kind, medias: seq<Media>, cost: nat)
      requires group in sendingAlbums
      modifies `sendingAlbums, `nextId, `inFlight, `log
      ensures var album := old(sendingAlbums)[group];
        Abs() == Marked(old(Abs()), group, Sent(group, kind, medias, Min(cost, album.starsApproved)))
    {
      var album := sendingAlbums[group];
      var starsPaid := Min(cost, album.starsApproved);
      if starsPaid != 0 {
        album := album.(starsApproved := album.starsApproved - starsPaid);
      }
      album := album.(sent := true);
      sendingAlbums := sendingAlbums[group := album];
      var request := Sent(group, kind, medias, starsPaid);
      inFlight := inFlight[nextId := request];
      nextId := nextId + 1;
      log := log + [request];
    }

    method SendAlbumIfReady(group: GroupId, starsPerMessage: nat)
      requires group in sendingAlbums
      modifies `sendingAlbums, `nextId, `inFlight, `log, `stalled
      ensures Abs() == SendIfReady(old(Abs()), group, starsPerMessage)
    {
      stalled := stalled - {group};
      var album := sendingAlbums[group];
      if album.sent {
        return;
      }
      if album.items == [] {
        sendingAlbums := sendingAlbums - {group};
        return;
      }
      var ready, sample, medias := CollectMedias(album.items, live);
      hide AllReady, SomeLive, Medias;
      if !ready {
        return;
      }
      if !sample {
        sendingAlbums := sendingAlbums - {group};
      } else if album.price > 0 {
        SendMedias(group, Paid, medias, starsPerMessage);
      } else if |album.items| < 2 {
        SendMedias(group, Single, medias, starsPerMessage);
        sendingAlbums := sendingAlbums - {group};
      } else {
        SendMedias(group, Multi, medias, starsPerMessage * |album.items|);
      }
    }

    /** The lookups that the source asserts, and fillMedia. */
    method FillMedia(msgId: MsgId, media: nat)
      requires HasMessage(Abs(), msgId)
      modifies `sendingAlbums, `uploading, `nextId, `uploaded
      ensures Abs() == Filled(old(Abs()), msgId, media)
    {
      hide FindMessage;
      var group, randomId := groupOf[msgId], nextId;
      nextId := nextId + 1;
      uploading := uploading - {msgId};
      var album := sendingAlbums[group];
      var at := FindAlbumItem(album.items, msgId);
      var item := album.items[at];
      item := item.(media := Media(media, randomId));
      uploaded := uploaded[item.taskId := item.media];
      sendingAlbums := sendingAlbums[group := album.(items := album.items[at := item])];
    }

    /** The upload's answer: sendAlbumWithUploaded, if the message is still there. */
    method SendAlbumWithUploaded(msgId: MsgId, media: nat, starsPerMessage: nat)
      requires Inv(Abs()) && msgId in uploading
      modifies `sendingAlbums, `uploading, `nextId, `inFlight, `log, `uploaded, `stalled
      ensures msgId in old(live) ==> HasMessage(old(Abs()), msgId)
      ensures Abs() == UploadDone(old(Abs()), msgId, media, starsPerMessage)
      ensures Inv(Abs())
    {
      hide Inv, FindMessage, SendIfReady, Filled;
      UploadDoneKeeps(Abs(), msgId, media, starsPerMessage);
      if msgId !in live {
        uploading := uploading - {msgId};
        return;
      }
      FilledIsRegistered(Abs(), msgId, media);
      FillMedia(msgId, media);
      SendAlbumIfReady(groupOf[msgId], starsPerMessage);
    }

    /** removeItem, and the message or file that the item was for. */
    method EraseItem(group: GroupId, at: nat)
      requires group in sendingAlbums && at < |sendingAlbums[group].items|
      modifies `sendingAlbums, `live, `preparing, `removed
      ensures Abs() == Erased(old(Abs()), group, at)
    {
      var album := sendingAlbums[group];
      var item := album.items[at];
      live, preparing, removed := live - {item.msgId}, preparing - {item.taskId}, removed + {item.taskId};
      sendingAlbums := sendingAlbums[group := album.(items := album.items[..at] + album.items[at + 1..])];
    }

    /** A message that is being sent is destroyed. */
    method SendAlbumWithCancelled(msgId: MsgId, starsPerMessage: nat)
      requires Inv(Abs()) && msgId in live
      modifies `sendingAlbums, `live, `preparing, `nextId, `inFlight, `log, `removed, `stalled
      ensures msgId in groupOf && (groupOf[msgId] in old(sendingAlbums) ==> HasMessage(old(Abs()), msgId))
      ensures Abs() == Cancelled(old(Abs()), msgId, starsPerMessage)
      ensures Inv(Abs())
    {
      hide Inv, FindMessage, SendIfReady, Erase;
      CancelledKeeps(Abs(), msgId, starsPerMessage);
      var group := groupOf[msgId];
      if group !in sendingAlbums {
        live := live - {msgId};
        return;
      }
      var at := FindAlbumItem(sendingAlbums[group].items, msgId);
      EraseItem(group, at);
      SendAlbumIfReady(group, starsPerMessage);
    }

    method RegisterAlbum(count: nat, price: nat, approved: nat)
      modifies `sendingAlbums, `preparing, `taskGroup, `nextId, `original, `stalled
      ensures Abs() == NewAlbum(old(Abs()), count, price, approved)
    {
      hide TasksOf, NewItems, NewTasks;
      var group := nextId;
      var items := MakeItems(group, count);
      var tasks := TasksOf(group, count);
      var preparingNow, groupsNow := preparing + tasks.Keys, taskGroup + tasks;
      var albumsNow := sendingAlbums[group := SendingAlbum(items, false, price, approved)];
      sendingAlbums, preparing, taskGroup, nextId := albumsNow, preparingNow, groupsNow, group + 1 + count;
      original := original[group := NewTasks(group, count)];
      stalled := if count == 0 then stalled + {group} else stalled;
    }

    method SendFiles(count: nat, price: nat, approved: nat)
      requires Inv(Abs())
      modifies `sendingAlbums, `preparing, `taskGroup, `nextId, `original, `stalled
      ensures Abs() == NewAlbum(old(Abs()), count, price, approved) && Inv(Abs())
    {
      hide Inv, NewAlbum;
      NewAlbumKeeps(Abs(), count, price, approved);
      RegisterAlbum(count, price, approved);
    }

    /** The item's local message appears, and its upload starts. */
    method ConfirmItem(group: GroupId, at: nat)
      requires group in sendingAlbums && at < |sendingAlbums[group].items|
      modifies `sendingAlbums, `preparing, `live, `uploading, `groupOf, `nextId
      ensures Abs() == Confirmed(old(Abs()), group, at)
    {
      var album, newId := sendingAlbums[group], nextId;
      var item := album.items[at];
      nextId := nextId + 1;
      item := item.(msgId := newId);
      sendingAlbums := sendingAlbums[group := album.(items := album.items[at := item])];
      live, uploading, groupOf := live + {newId}, uploading + {newId}, groupOf[newId := group];
      preparing := preparing - {item.taskId};
    }

    /** SendConfirmedFile, for a file of an album. */
    method SendConfirmedFile(taskId: TaskId)
      requires Inv(Abs()) && taskId in preparing
      modifies `sendingAlbums, `preparing, `live, `uploading, `groupOf, `nextId
      ensures HasTask(old(Abs()), taskId) && Abs() == Confirm(old(Abs()), taskId) && Inv(Abs())
    {
      hide Inv, FindTask;
      ConfirmKeeps(Abs(), taskId);
      var group := taskGroup[taskId];
      var at := FindAlbumTask(sendingAlbums[group].items, taskId);
      ConfirmItem(group, at);
    }

    /** FileLoadTask::removeFromAlbum. */
    method RemoveFileFromAlbum(taskId: TaskId)
      requires Inv(Abs()) && taskId in preparing
      modifies `sendingAlbums, `preparing, `live, `removed, `stalled
      ensures HasTask(old(Abs()), taskId) && Abs() == RemoveFromAlbum(old(Abs()), taskId) && Inv(Abs())
    {
      hide Inv, FindTask, AllReady, Erased;
      RemoveFromAlbumKeeps(Abs(), taskId);
      ErasedIsRegistered(Abs(), taskId);
      var group := taskGroup[taskId];
      var at := FindAlbumTask(sendingAlbums[group].items, taskId);
      EraseItem(group, at);
      if AllReady(sendingAlbums[group].items) { stalled := stalled + {group}; }
    }

    /** The loop over the copy of the items, whose album is not registered any more. */
    method DestroyMessages(items: seq<Item>)
      modifies `live
      ensures live == old(live) - Messages(items)
    {
      for i := 0 to |items|
        invariant live == old(live) - Messages(items[..i])
      {
        assert Messages(items[..i + 1]) == Messages(items[..i]) + {items[i].msgId} by {
          assert items[..i + 1] == items[..i] + [items[i]];
        }
        live := live - {items[i].msgId};
      }
      assert items[..|items|] == items;
    }

    /** The done handlers: a paid album's messages are destroyed. */
    method SendSucceeded(requestId: nat)
      requires Inv(Abs()) && requestId in inFlight
      modifies `sendingAlbums, `live, `inFlight
      ensures Abs() == SendDone(old(Abs()), requestId) && Inv(Abs())
    {
      hide Inv;
      AnswerKeeps(Abs(), requestId);
      var sent := inFlight[requestId];
      inFlight := inFlight - {requestId};
      if sent.kind == Single || sent.group !in sendingAlbums {
        return;
      }
      var items := sendingAlbums[sent.group].items;
      sendingAlbums := sendingAlbums - {sent.group};
      if sent.kind == Paid {
        DestroyMessages(items);
      }
    }

    /** The fail handlers. */
    method SendFailed(requestId: nat)
      requires Inv(Abs()) && requestId in inFlight
      modifies `sendingAlbums, `inFlight
      ensures Abs() == SendFail(old(Abs()), requestId) && Inv(Abs())
    {
      hide Inv;
      AnswerKeeps(Abs(), requestId);
      var sent := inFlight[requestId];
      inFlight := inFlight - {requestId};
      if sent.kind == Multi {
        sendingAlbums := sendingAlbums - {sent.group};
      }
    }
  }
}
