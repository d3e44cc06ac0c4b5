/**
 * Outbound routing and payload composition: where `send` and `reply` deliver
 * (src/index.js:151-223), the wire calls they make, and the payloads of the
 * attachment post and the channel-header update (src/index.js:275-308).
 */
module Outbound {
  import opened Js
  import opened Identity

  /** The optional icon override of an impersonating attachment post. */
  datatype Icon = NoIcon | IconUrl(url: Value) | IconEmoji(emoji: Value)

  /** The threaded reply posted by `reply` (src/index.js:188-197, 204). */
  datatype ReplyPost = ReplyPost(
    message: Value, rootId: Value, parentId: Value, createAt: int,
    userId: string, filename: seq<Value>, channelId: Value)

  /** The `slack_attachment` post (src/index.js:277-294). */
  datatype AttachmentPost = AttachmentPost(
    text: Value, kind: string, attachments: seq<Value>, channelId: Value,
    asUser: bool, username: Option<Value>, icon: Icon)

  datatype Payload = Reply(reply: ReplyPost) | Attachment(attachment: AttachmentPost)

  /** A call into the chat client. */
  datatype Call =
    | PostMessage(text: string, channel: Value)
    | CustomMessage(payload: Payload, channel: Value)
    | GetDmChannel(userId: Value)
    | SetChannelHeader(channel: Value, header: string)

  /** Where a message for a room token goes. */
  datatype Route =
    | ToChannel(channel: Value)
    | ToDm(channel: Value)
    | RequestDm(key: string, userId: Value)

  /** What a DM-channel request does once the channel is known. */
  datatype Continuation = PostAll(strings: seq<string>) | PostReply(draft: ReplyPost)

  /** An outstanding `getUserDirectMessageChannel` request for the cached user `key`. */
  datatype PendingDm = PendingDm(key: string, next: Continuation)

  /** The number of DM-channel requests among `calls`. */
  function Requests(calls: seq<Call>): nat
  {
    if calls == [] then 0
    else (if calls[0].GetDmChannel? then 1 else 0) + Requests(calls[1..])
  }

  lemma {:induction false} RequestsAppend(a: seq<Call>, b: seq<Call>)
    ensures Requests(a + b) == Requests(a) + Requests(b)
  {
    if a == [] {
      assert a + b == b;
    } else {
      assert (a + b)[0] == a[0] && (a + b)[1..] == a[1..] + b;
      RequestsAppend(a[1..], b);
    }
  }

  /**
   * The channel a non-user room token names: the id of the channel the client
   * finds by that name, or the token itself (src/index.js:158-159, 203-204).
   */
  function ChannelFor(channels: map<string, Value>, room: string): (r: Value)
    ensures room in channels && Truthy(channels[room]) ==> r == channels[room]
    ensures !(room in channels && Truthy(channels[room])) ==> r == Str(room)
  {
    if room in channels && Truthy(channels[room]) then channels[room] else Str(room)
  }

  /**
   * The destination of a message for `room`, where `named` is the cached user
   * the framework finds by that name, if any (src/index.js:154-171, 199-218):
   * a user name always means a direct message, to the cached DM channel when
   * there is one and through a new DM-channel request otherwise; any other
   * token means a channel.
   */
  function Resolve(users: map<string, User>, channels: map<string, Value>, room: string, named: Option<string>): (r: Route)
    requires named.Some? ==> named.value in users
    ensures r.ToChannel? <==> named.None?
    ensures r.ToChannel? ==> r.channel == ChannelFor(channels, room)
    ensures r.ToDm? ==> r.channel == DmField(users[named.value]) && !Nullish(r.channel)
    ensures r.RequestDm? <==> named.Some? && Nullish(DmField(users[named.value]))
    ensures r.RequestDm? ==> r.key == named.value && r.userId == Field(users[r.key], "id")
  {
    match named
    case None => ToChannel(ChannelFor(channels, room))
    case Some(key) =>
      var dm := DmField(users[key]);
      if !Nullish(dm) then ToDm(dm) else RequestDm(key, Field(users[key], "id"))
  }

  /** One `postMessage` per string, in order, to `channel`. */
  function Posts(strings: seq<string>, channel: Value): (r: seq<Call>)
    ensures |r| == |strings|
    ensures forall i :: 0 <= i < |r| ==> r[i] == PostMessage(strings[i], channel)
    decreases |strings|
  {
    if strings == [] then [] else [PostMessage(strings[0], channel)] + Posts(strings[1..], channel)
  }

  /** Posting makes no DM-channel request. */
  lemma {:induction false} PostsMakeNoRequest(strings: seq<string>, channel: Value)
    ensures Requests(Posts(strings, channel)) == 0
    decreases |strings|
  {
    if strings != [] {
      var rest := Posts(strings[1..], channel);
      PostsMakeNoRequest(strings[1..], channel);
      RequestsAppend([PostMessage(strings[0], channel)], rest);
      assert Requests([PostMessage(strings[0], channel)]) == 0;
    }
  }

  /** The calls `send` makes at once for a route: the posts, or the DM-channel request. */
  function SendCalls(route: Route, strings: seq<string>): (r: seq<Call>)
    ensures Requests(r) == if route.RequestDm? then 1 else 0
    ensures route.RequestDm? ==> r == [GetDmChannel(route.userId)]
    ensures !route.RequestDm? ==> r == Posts(strings, route.channel)
  {
    match route
    case RequestDm(_, userId) =>
      assert Requests([GetDmChannel(userId)]) == 1;
      [GetDmChannel(userId)]
    case _ =>
      PostsMakeNoRequest(strings, route.channel);
      Posts(strings, route.channel)
  }

  /** The DM-channel request a route leaves outstanding, if any. */
  function PendingFor(route: Route, next: Continuation): (r: seq<PendingDm>)
    ensures |r| == if route.RequestDm? then 1 else 0
    ensures route.RequestDm? ==> r[0] == PendingDm(route.key, next)
  {
    if route.RequestDm? then [PendingDm(route.key, next)] else []
  }

  /**
   * The reply `reply` builds before it is routed (src/index.js:187-197): the
   * first string behind a mention of the message's author, linked as a thread
   * reply to the message, authored by the bot.
   */
  function ReplyDraft(author: User, strings: seq<string>, messageId: Value, now: int, selfId: string): (r: ReplyPost)
    ensures |strings| > 0 ==> r.message == Str("@" + ToJsString(Field(author, "name")) + " " + strings[0])
    ensures |strings| == 0 ==> r.message == Undefined
    ensures r.rootId == messageId && r.parentId == messageId
    ensures r.userId == selfId && r.filename == [] && r.createAt == now
    ensures r.channelId == Undefined
  {
    var mentioned := seq(|strings|, i requires 0 <= i < |strings| => "@" + ToJsString(Field(author, "name")) + " " + strings[i]);
    ReplyPost(
      if |mentioned| > 0 then Str(mentioned[0]) else Undefined,
      messageId, messageId, now, selfId, [], Undefined)
  }

  /** `customMessage(postData, postData.channel_id)` once the channel is known. */
  function ReplyCall(draft: ReplyPost, channel: Value): (r: Call)
    ensures r.CustomMessage? && r.channel == channel && r.payload.Reply?
    ensures r.payload.reply == draft.(channelId := channel)
  {
    CustomMessage(Reply(draft.(channelId := channel)), channel)
  }

  /** The one call `reply` makes at once for a route: the reply, or the DM-channel request. */
  function ReplyCalls(route: Route, draft: ReplyPost): (r: seq<Call>)
    ensures |r| == 1
    ensures Requests(r) == if route.RequestDm? then 1 else 0
    ensures route.RequestDm? ==> r[0] == GetDmChannel(route.userId)
    ensures !route.RequestDm? ==> r[0] == ReplyCall(draft, route.channel)
  {
    var r := if route.RequestDm? then [GetDmChannel(route.userId)] else [ReplyCall(draft, route.channel)];
    assert Requests(r) == Requests(r[1..]) + (if r[0].GetDmChannel? then 1 else 0);
    r
  }

  /** The calls a completed DM-channel request makes, to the new channel (src/index.js:172-178, 219-221). */
  function Completion(next: Continuation, channel: Value): (r: seq<Call>)
    ensures Requests(r) == 0
    ensures next.PostAll? ==> r == Posts(next.strings, channel)
    ensures next.PostReply? ==> r == [ReplyCall(next.draft, channel)]
  {
    match next
    case PostAll(strings) =>
      PostsMakeNoRequest(strings, channel);
      Posts(strings, channel)
    case PostReply(draft) =>
      assert Requests([ReplyCall(draft, channel)]) == 0;
      [ReplyCall(draft, channel)]
  }

  /**
   * Once a user's DM channel is cached, a message for that user goes there
   * and makes no DM-channel request.
   */
  lemma CachedDmIsReused(users: map<string, User>, key: string, channel: string,
                         channels: map<string, Value>, room: string, strings: seq<string>)
    requires key in users && HasMm(users[key])
    ensures var cached := users[key := WithDm(users[key], Str(channel))];
      && Resolve(cached, channels, room, Some(key)) == ToDm(Str(channel))
      && Requests(SendCalls(Resolve(cached, channels, room, Some(key)), strings)) == 0
  {
  }

  /**
   * A user without a cached DM channel costs exactly one DM-channel request:
   * the first send requests it, its completion posts the waiting strings, and
   * a later send goes straight to the cached channel.
   */
  lemma OneRequestPerDmChannel(users: map<string, User>, key: string, channelId: string,
                               channels: map<string, Value>, room: string, first: seq<string>, later: seq<string>)
    requires key in users && HasMm(users[key]) && Nullish(DmField(users[key]))
    ensures var before := Resolve(users, channels, room, Some(key));
      var cached := users[key := WithDm(users[key], Str(channelId))];
      var after := Resolve(cached, channels, room, Some(key));
      && before == RequestDm(key, Field(users[key], "id"))
      && after == ToDm(Str(channelId))
      && Requests(SendCalls(before, first) + Completion(PostAll(first), Str(channelId)) + SendCalls(after, later)) == 1
  {
    var before := Resolve(users, channels, room, Some(key));
    var cached := users[key := WithDm(users[key], Str(channelId))];
    var after := Resolve(cached, channels, room, Some(key));
    RequestsAppend(SendCalls(before, first), Completion(PostAll(first), Str(channelId)));
    RequestsAppend(SendCalls(before, first) + Completion(PostAll(first), Str(channelId)), SendCalls(after, later));
  }

  /**
   * A profile refresh keeps a user's direct messages on the cached DM
   * channel, as long as the snapshot carries none of its own.
   */
  lemma RefreshKeepsDmRoute(users: map<string, User>, key: string, snap: Bag,
                            channels: map<string, Value>, room: string)
    requires key in users && HasId(snap) && DmKey !in snap
    requires !Nullish(DmField(users[key]))
    ensures var refreshed := users[key := Refreshed(users[key], snap)];
      Resolve(refreshed, channels, room, Some(key)) == Resolve(users, channels, room, Some(key))
  {
  }

  /** `data.attachments || []`, made a list (src/index.js:282-283). */
  function AttachmentList(attachments: Value): (r: seq<Value>)
    ensures !Truthy(attachments) ==> r == []
    ensures attachments.Arr? ==> r == attachments.items
    ensures Truthy(attachments) && !attachments.Arr? ==> r == [attachments]
  {
    var list := if Truthy(attachments) then attachments else Arr([]);
    if list.Arr? then list.items else [list]
  }

  /** The event data of a `slack-attachment` / `slack.attachment` event. */
  datatype AttachmentData = AttachmentData(
    room: Value, text: Value, attachments: Value,
    username: Value, iconUrl: Value, iconEmoji: Value)

  /**
   * The attachment post for an event (src/index.js:277-294): impersonating
   * the given user name when it is set and is not the bot's own, with the
   * icon URL preferred over the emoji; authored by the bot otherwise.
   */
  function AttachmentPayload(data: AttachmentData, botName: string): (r: AttachmentPost)
    ensures r.kind == "slack_attachment" && r.text == data.text && r.channelId == data.room
    ensures r.attachments == AttachmentList(data.attachments)
    ensures !r.asUser <==> Truthy(data.username) && data.username != Str(botName)
    ensures r.asUser ==> r.username.None? && r.icon.NoIcon?
    ensures !r.asUser ==> r.username == Some(data.username)
    ensures !r.asUser && !Nullish(data.iconUrl) ==> r.icon == IconUrl(data.iconUrl)
    ensures !r.asUser && Nullish(data.iconUrl) && !Nullish(data.iconEmoji) ==> r.icon == IconEmoji(data.iconEmoji)
    ensures Nullish(data.iconUrl) && Nullish(data.iconEmoji) ==> r.icon.NoIcon?
  {
    var impersonate := Truthy(data.username) && data.username != Str(botName);
    var icon :=
      if !impersonate then NoIcon
      else if !Nullish(data.iconUrl) then IconUrl(data.iconUrl)
      else if !Nullish(data.iconEmoji) then IconEmoji(data.iconEmoji)
      else NoIcon;
    AttachmentPost(data.text, "slack_attachment", AttachmentList(data.attachments), data.room,
                   !impersonate, if impersonate then Some(data.username) else None, icon)
  }

  /** The calls `slackAttachmentMessage` makes: none without a room, else the attachment post. */
  function AttachmentCalls(data: AttachmentData, botName: string): (r: seq<Call>)
    ensures |r| == if Truthy(data.room) then 1 else 0
    ensures Requests(r) == 0
    ensures |r| == 1 ==> r[0] == CustomMessage(Attachment(AttachmentPayload(data, botName)), data.room)
  {
    if !Truthy(data.room) then []
    else
      var r := [CustomMessage(Attachment(AttachmentPayload(data, botName)), data.room)];
      assert Requests(r) == Requests(r[1..]);
      r
  }

  /** The outcome of `changeHeader`. */
  datatype HeaderOutcome = Skipped | ChannelNotFound | Updated(call: Call)

  /**
   * `changeHeader(channel, header)` (src/index.js:299-308): nothing without a
   * channel or a header, a local error for a channel the client does not
   * know, and otherwise one header update of that channel's id.
   */
  function HeaderUpdate(channels: map<string, Value>, channel: Option<string>, header: Option<string>): (r: HeaderOutcome)
    ensures r.Skipped? <==> channel.None? || header.None?
    ensures r.ChannelNotFound? <==> channel.Some? && header.Some? && channel.value !in channels
    ensures r.Updated? ==> r.call == SetChannelHeader(channels[channel.value], header.value)
  {
    if channel.None? || header.None? then Skipped
    else if channel.value !in channels then ChannelNotFound
    else Updated(SetChannelHeader(channels[channel.value], header.value))
  }
}
