/** The Kafka event handlers of `EventConsumer`: notification messages for
    comment, follow and like events, search-index calls for publish and delete
    events, and the render command plus upload task for share events.

    The services a handler calls are recorded as a log of `Call`s that the
    handler returns.  A record that is missing, has no value, or whose value
    does not parse to an event is a `Delivery` other than `Delivered(Some(_))`. */
module EventConsumer {
  import opened Common
  import opened UploadTasks

  /** The sender id of system notifications.  Its value is defined in
      `CommunityConstant`, which is not part of this model. */
  const SYSTEM_USER_ID: int := 1

  /** The quality option the render command is given. */
  const RENDER_QUALITY: string := " --quality 75 "

  datatype Event = Event(
    topic: string,
    userId: int,
    entityType: int,
    entityId: int,
    entityUserId: int,
    data: map<string, Value>)

  /** A consumer record as a handler sees it: null, with a null value, or with
      a value whose parse to an `Event` gave the optional result. */
  datatype Delivery = NoRecord | NullValue | Delivered(parsed: Option<Event>)

  /** The event a handler acts on, if it gets past its two null guards. */
  function EventOf(d: Delivery): (r: Option<Event>)
    ensures r.Some? <==> d.Delivered? && d.parsed.Some?
    ensures r.Some? ==> r == d.parsed
  {
    match d
    case Delivered(parsed) => parsed
    case _ => None
  }

  datatype Message = Message(
    fromId: int,
    toId: int,
    conversationId: string,
    createTime: int,
    content: map<string, Value>)

  datatype DiscussPost = DiscussPost(id: int, userId: int, title: string, content: string)

  /** A call into a collaborator: the message service, the search index, the
      operating system's process launcher, or the task scheduler. */
  datatype Call =
    | AddMessage(message: Message)
    | SaveDiscussPost(post: Option<DiscussPost>)
    | DeleteDiscussPost(id: int)
    | Exec(command: string)
    | ScheduleAtFixedRate(task: Task, periodMs: int)

  /** The three entries every notification content starts with. */
  function BaseContent(e: Event): map<string, Value> {
    map["userId" := IntVal(e.userId), "entityType" := IntVal(e.entityType), "entityId" := IntVal(e.entityId)]
  }

  /** The content of the notification for `e`: the base entries, then every
      entry of the event's data, so that a data entry wins on a shared key. */
  function NotificationContent(e: Event): (c: map<string, Value>)
    ensures c.Keys == e.data.Keys + {"userId", "entityType", "entityId"}
    ensures forall k :: k in e.data ==> c[k] == e.data[k]
    ensures "userId" !in e.data ==> c["userId"] == IntVal(e.userId)
    ensures "entityType" !in e.data ==> c["entityType"] == IntVal(e.entityType)
    ensures "entityId" !in e.data ==> c["entityId"] == IntVal(e.entityId)
  {
    BaseContent(e) + e.data
  }

  /** The notification for `e` created at `now`. */
  function Notification(e: Event, now: int): (m: Message)
    ensures m.fromId == SYSTEM_USER_ID && m.toId == e.entityUserId
    ensures m.conversationId == e.topic && m.createTime == now
    ensures m.content == NotificationContent(e)
  {
    Message(SYSTEM_USER_ID, e.entityUserId, e.topic, now, NotificationContent(e))
  }

  /** `handleCommentMessage`: exactly one message for a parsed event, none
      otherwise.  The content map is filled in place, entry by entry. */
  method HandleCommentMessage(d: Delivery, now: int) returns (calls: seq<Call>)
    ensures EventOf(d).None? ==> calls == []
    ensures EventOf(d).Some? ==> calls == [AddMessage(Notification(EventOf(d).value, now))]
  {
    if d.NoRecord? || d.NullValue? {
      return [];
    }
    if d.parsed.None? {
      return [];
    }
    var e := d.parsed.value;
    var content: map<string, Value> := map[];
    content := content["userId" := IntVal(e.userId)];
    content := content["entityType" := IntVal(e.entityType)];
    content := content["entityId" := IntVal(e.entityId)];
    if e.data != map[] {
      var pending := e.data.Keys;
      while pending != {}
        invariant pending <= e.data.Keys
        invariant content == BaseContent(e) + map k | k in e.data.Keys - pending :: e.data[k]
        decreases pending
      {
        var k :| k in pending;
        content := content[k := e.data[k]];
        pending := pending - {k};
      }
    }
    assert content == BaseContent(e) + e.data;
    calls := [AddMessage(Message(SYSTEM_USER_ID, e.entityUserId, e.topic, now, content))];
  }

  /** `handlePublishMessage`: one index call for a parsed event, with the post
      found under the event's entity id, or null when there is none. */
  function HandlePublishMessage(d: Delivery, posts: map<int, DiscussPost>): (calls: seq<Call>)
    ensures |calls| == if EventOf(d).Some? then 1 else 0
    ensures forall i :: 0 <= i < |calls| ==> calls[i].SaveDiscussPost?
    ensures (EventOf(d).Some? && EventOf(d).value.entityId in posts)
            ==> calls[0].post == Some(posts[EventOf(d).value.entityId])
    ensures EventOf(d).Some? && EventOf(d).value.entityId !in posts ==> calls[0].post == None
  {
    match EventOf(d)
    case None => []
    case Some(e) => [SaveDiscussPost(Lookup(posts, e.entityId))]
  }

  /** `handleDeleteMessage`: one index removal of the event's entity id. */
  function HandleDeleteMessage(d: Delivery): (calls: seq<Call>)
    ensures |calls| == if EventOf(d).Some? then 1 else 0
    ensures forall i :: 0 <= i < |calls| ==> calls[i] == DeleteDiscussPost(EventOf(d).value.entityId)
  {
    match EventOf(d)
    case None => []
    case Some(e) => [DeleteDiscussPost(e.entityId)]
  }

  /** The configured render command and image directory. */
  datatype ShareConfig = ShareConfig(wkImageCommand: string, wkImageStorage: string)

  /** `(String) data.get(key)` as it is later concatenated: a missing entry is
      null and prints as "null"; a value that is not a string fails the cast. */
  function DataString(data: map<string, Value>, key: string): (r: Option<string>)
    ensures key !in data ==> r == Some("null")
    ensures key in data ==> (r.Some? <==> data[key].StrVal?)
    ensures key in data && data[key].StrVal? ==> r == Some(data[key].s)
  {
    if key !in data then Some("null")
    else match data[key]
      case StrVal(s) => Some(s)
      case _ => None
  }

  /** The file the render command writes and the task polls. */
  function ImagePath(storage: string, fileName: string, suffix: string): (p: string)
    ensures |p| == |storage| + 1 + |fileName| + |suffix|
    ensures p[..|storage|] == storage && p[|storage|] == '/'
    ensures p[|storage| + 1..] == fileName + suffix
  {
    var p := storage + "/" + fileName + suffix;
    assert p == storage + ("/" + (fileName + suffix));
    p
  }

  /** The render command: the configured renderer, the quality option, the
      page URL and, after one space, the output image path. */
  function RenderCommand(cfg: ShareConfig, htmlUrl: string, fileName: string, suffix: string): (cmd: string)
    ensures var n := |cfg.wkImageCommand|;
            |cmd| > n + |RENDER_QUALITY| && cmd[..n] == cfg.wkImageCommand &&
            cmd[n..n + |RENDER_QUALITY|] == RENDER_QUALITY
    ensures var p := ImagePath(cfg.wkImageStorage, fileName, suffix);
            |p| < |cmd| && cmd[|cmd| - |p|..] == p && cmd[|cmd| - |p| - 1] == ' '
  {
    var path := ImagePath(cfg.wkImageStorage, fileName, suffix);
    var head := cfg.wkImageCommand + RENDER_QUALITY + htmlUrl + " ";
    var cmd := head + path;
    assert cmd[|head|..] == path;
    assert cmd[..|cfg.wkImageCommand|] == cfg.wkImageCommand;
    cmd
  }

  /** The three entries the share handler reads all pass the cast to `String`. */
  predicate ShareEntriesPresent(e: Event) {
    && DataString(e.data, "htmlUrl").Some?
    && DataString(e.data, "fileName").Some?
    && DataString(e.data, "suffix").Some?
  }

  /** What a handler did, and the exception it threw, if any. */
  datatype Handled = Handled(calls: seq<Call>, thrown: Option<Exception>)

  /** `handleShareMessage`: launch the render command, then schedule a fresh
      upload task at the fixed rate.  `execFails` says whether launching the
      process throws `IOException`.  The scheduled task receives its future by
      `setFuture` right after it is scheduled. */
  function HandleShareMessage(d: Delivery, cfg: ShareConfig, now: int, execFails: bool): (r: Handled)
    ensures EventOf(d).None? ==> r == Handled([], None)
    // a data entry that is not a string throws before anything is launched
    ensures EventOf(d).Some? &&
            (DataString(EventOf(d).value.data, "htmlUrl").None? ||
             DataString(EventOf(d).value.data, "fileName").None? ||
             DataString(EventOf(d).value.data, "suffix").None?)
            ==> r == Handled([], Some(ClassCast))
    // with three string entries the render command is launched, and the
    // handler throws exactly when the launch does
    ensures EventOf(d).Some? && ShareEntriesPresent(EventOf(d).value) ==>
              && r.calls != []
              && r.calls[0] == Exec(RenderCommand(cfg, DataString(EventOf(d).value.data, "htmlUrl").value,
                                                  DataString(EventOf(d).value.data, "fileName").value,
                                                  DataString(EventOf(d).value.data, "suffix").value))
              && (r.thrown == Some(RuntimeFromIO) <==> execFails)
              && (!execFails ==> r.thrown.None?)
    // every launch runs exactly one command; a failed launch creates no task
    ensures r.calls != [] ==> r.calls[0].Exec?
    ensures r.thrown == Some(RuntimeFromIO) ==> |r.calls| == 1 && execFails
    ensures r.thrown.None? && r.calls != [] ==>
              && !execFails && |r.calls| == 2
              && r.calls[1].ScheduleAtFixedRate? && r.calls[1].periodMs == PERIOD_MS
              && r.calls[1].task.uploadTimes == 0 && r.calls[1].task.future == Unset
              && r.calls[1].task.startTime == now
              && r.calls[1].task.fileName == DataString(EventOf(d).value.data, "fileName").value
              && r.calls[1].task.suffix == DataString(EventOf(d).value.data, "suffix").value
  {
    match EventOf(d)
    case None => Handled([], None)
    case Some(e) =>
      var htmlUrl := DataString(e.data, "htmlUrl");
      var fileName := DataString(e.data, "fileName");
      var suffix := DataString(e.data, "suffix");
      if htmlUrl.None? || fileName.None? || suffix.None? then
        Handled([], Some(ClassCast))
      else
        var cmd := RenderCommand(cfg, htmlUrl.value, fileName.value, suffix.value);
        if execFails then
          Handled([Exec(cmd)], Some(RuntimeFromIO))
        else
          Handled([Exec(cmd), ScheduleAtFixedRate(NewTask(fileName.value, suffix.value, now), PERIOD_MS)], None)
  }

  /** The path the scheduled task polls is exactly the output path at the end
      of the command that was launched, and the command is the configured
      renderer with quality 75 applied to the event's URL. */
  lemma SharePathMatchesCommand(d: Delivery, cfg: ShareConfig, now: int)
    requires EventOf(d).Some? && ShareEntriesPresent(EventOf(d).value)
    ensures var r := HandleShareMessage(d, cfg, now, false);
            var path := ImagePath(cfg.wkImageStorage, r.calls[1].task.fileName, r.calls[1].task.suffix);
            var cmd := r.calls[0].command;
            && r.thrown.None? && |r.calls| == 2
            && cmd == cfg.wkImageCommand + " --quality 75 " +
                      DataString(EventOf(d).value.data, "htmlUrl").value + " " + path
            && |path| < |cmd| && cmd[|cmd| - |path|..] == path
  {
    var r := HandleShareMessage(d, cfg, now, false);
    var path := ImagePath(cfg.wkImageStorage, r.calls[1].task.fileName, r.calls[1].task.suffix);
    var prefix := cfg.wkImageCommand + " --quality 75 " + DataString(EventOf(d).value.data, "htmlUrl").value + " ";
    assert r.calls[0].command == prefix + path;
    assert (prefix + path)[|prefix|..] == path;
  }
}
