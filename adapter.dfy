/**
 * The Mattermost adapter (`Matteruser`, src/index.js:21-309) as an object: the
 * bot brain's user cache, the bot's own identity, its configuration, the calls
 * it has made into the chat client, the messages it has handed to the bot
 * framework, and the DM-channel requests still outstanding.
 *
 * The chat client's directories are passed to the operations that read them:
 * `client.users` (id to snapshot) as `directory`, the channels found by name
 * as `channels` (name to channel id), and the user the framework finds for a
 * room name (`robot.brain.userForName`) as `named`, the key of a cached user.
 */
module Matteruser {
  import opened Js
  import opened Identity
  import opened Inbound
  import opened Outbound

  /** The envelope of an outbound message: the room token, the user it answers, the message's id. */
  datatype Envelope = Envelope(room: string, user: User, messageId: Value)

  class Adapter {
    /** `robot.brain.data.users`. */
    var users: map<string, User>
    /** `robot.name`. */
    var botName: string
    /** `self.id`, once logged in. */
    var selfId: string
    var loggedIn: bool
    /** `MATTERMOST_REPLY === 'false'`. */
    const noReply: bool
    /** `MATTERMOST_IGNORE_USERS`, split at commas. */
    const ignoreUsers: seq<string>
    /** Every call made into the chat client, in order. */
    var calls: seq<Call>
    /** Every message handed to `receive`, in order. */
    var received: seq<Received>
    /** The `getUserDirectMessageChannel` requests whose callback has not run. */
    var pending: seq<PendingDm>

    /** Every outstanding DM request is for a cached user. */
    ghost predicate Valid()
      reads this
    {
      forall p :: p in pending ==> p.key in users
    }

    constructor (robotName: string, stored: map<string, User>, noReply: bool, ignoreUsers: seq<string>)
      ensures Valid() && users == stored && botName == robotName && !loggedIn
      ensures this.noReply == noReply && this.ignoreUsers == ignoreUsers
      ensures calls == [] && received == [] && pending == []
    {
      users := stored;
      botName := robotName;
      selfId := "";
      loggedIn := false;
      this.noReply := noReply;
      this.ignoreUsers := ignoreUsers;
      calls := [];
      received := [];
      pending := [];
    }

    /** `loggedIn(user)` (src/index.js:128-133): the bot takes the logged-in user's id and name. */
    method LoggedIn(id: string, username: string)
      modifies this`selfId, this`botName, this`loggedIn
      ensures loggedIn && selfId == id && botName == username
    {
      selfId := id;
      botName := username;
      loggedIn := true;
    }

    /** `robot.brain.userForId(id)`: the cached record, created for an unseen id. */
    method UserForId(key: string, id: Value) returns (u: User)
      requires Valid()
      modifies this`users
      ensures Valid()
      ensures users == old(users)[key := Lookup(old(users), key, id)]
      ensures u == users[key] && u == Lookup(old(users), key, id)
    {
      if key !in users {
        users := users[key := Stub(id)];
      }
      u := users[key];
    }

    /**
     * `userChange(user)` (src/index.js:100-126): a snapshot without an id
     * changes nothing; otherwise the cache entry for its id is replaced by
     * the refreshed record and nothing else changes.
     */
    method UserChange(snap: Bag)
      requires Valid()
      modifies this`users
      ensures Valid()
      ensures !HasId(snap) ==> users == old(users)
      ensures HasId(snap) ==>
        var key := KeyOf(snap["id"]);
        users == old(users)[key := Refreshed(Lookup(old(users), key, snap["id"]), snap)]
    {
      if !HasId(snap) {
        return;
      }
      var id := snap["id"];
      var key := KeyOf(id);
      var prev := UserForId(key, id);
      var newUser := BuildRecord(prev, snap);
      users := users - {key};
      users := users[key := newUser["id" := id]];
    }

    /** `userChange` of the directory's user `id`. */
    method RefreshListed(directory: map<string, Bag>, id: string)
      requires Valid() && KeyedById(directory) && id in directory
      modifies this`users
      ensures Valid()
      ensures users == old(users)[id := Refreshed(Lookup(old(users), id, Str(id)), directory[id])]
    {
      var snap := directory[id];
      assert snap["id"] == Str(id) && KeyOf(snap["id"]) == id;
      UserChange(snap);
    }

    /** Refreshing the next listed user of a partly refreshed cache. */
    method RefreshNext(ghost base: map<string, User>, directory: map<string, Bag>, todo: set<string>, id: string)
      requires Valid() && KeyedById(directory) && id in todo && todo <= directory.Keys
      requires users == base + (DirectoryRecords(base, directory) - todo)
      modifies this`users
      ensures Valid()
      ensures users == base + (DirectoryRecords(base, directory) - (todo - {id}))
    {
      DirectoryStep(base, directory, todo, id);
      RefreshListed(directory, id);
    }

    /**
     * `profilesLoaded()` (src/index.js:135-140): `userChange` of every user
     * the client knows.
     */
    method ProfilesLoaded(directory: map<string, Bag>)
      requires Valid() && KeyedById(directory)
      modifies this`users
      ensures Valid()
      ensures users == old(users) + DirectoryRecords(old(users), directory)
    {
      ghost var target := DirectoryRecords(users, directory);
      UnionEnds(users, target);
      var todo := directory.Keys;
      while todo != {}
        invariant todo <= directory.Keys
        invariant Valid()
        invariant users == old(users) + (target - todo)
        decreases todo
      {
        var id :| id in todo;
        RefreshNext(old(users), directory, todo, id);
        todo := todo - {id};
      }
    }

    /**
     * `brainLoaded()` called on the adapter (src/index.js:142-149): the same
     * refresh of every user the client knows.
     */
    method BrainLoaded(directory: map<string, Bag>)
      requires Valid() && KeyedById(directory)
      modifies this`users
      ensures Valid()
      ensures users == old(users) + DirectoryRecords(old(users), directory)
    {
      ProfilesLoaded(directory);
    }

    /**
     * A `message` event (src/index.js:225-256). A sender on the ignore list
     * and the bot's own posts are dropped with nothing changed. Any other post
     * stamps its channel on the sender (and, in a direct message, caches it as
     * the sender's DM channel) and hands exactly one message, with the shaped
     * text, to the framework.
     */
    method Message(ev: MessageEvent) returns (accepted: bool)
      requires Valid()
      requires ev.senderName !in ignoreUsers ==> loggedIn
      requires ev.senderName !in ignoreUsers && ev.post.userId != selfId && ev.channelType == DirectChannel ==>
        ev.post.userId in users && HasMm(users[ev.post.userId])
      modifies this`users, this`received
      ensures Valid()
      ensures accepted <==> ev.senderName !in ignoreUsers && ev.post.userId != selfId
      ensures !accepted ==> users == old(users) && received == old(received)
      ensures accepted ==>
        var uid := ev.post.userId;
        var sender := Stamp(Lookup(old(users), uid, Str(uid)), ev);
        && users == old(users)[uid := sender]
        && received == old(received) + [Classify(sender, ShapeText(botName, ev.channelType, ev.post.message), ev.post)]
    {
      if ev.senderName in ignoreUsers {
        return false;
      }
      var post := ev.post;
      if post.userId == selfId {
        return false;
      }
      var user := UserForId(post.userId, Str(post.userId));
      user := WithRoom(user, post.channelId);
      var text := post.message;
      if ev.channelType == DirectChannel {
        if !MentionsBot(botName, text) {
          text := botName + " " + text;
        }
        user := WithDm(user, Str(post.channelId));
      }
      users := users[post.userId := user];
      received := received + [Classify(user, text, post)];
      return true;
    }

    /** `user = userForId(id); user.room = room` (src/index.js:261-262, 269-270). */
    method PlaceInRoom(key: string, id: Value, room: string) returns (user: User)
      requires Valid()
      modifies this`users
      ensures Valid()
      ensures users == old(users)[key := WithRoom(Lookup(old(users), key, id), room)]
      ensures user == users[key]
    {
      user := UserForId(key, id);
      user := WithRoom(user, room);
      users := users[key := user];
    }

    /**
     * A `user_added` event (src/index.js:258-265): the user is refreshed from
     * the client's directory, the broadcast channel becomes the room of the
     * cached record for their id, and one Enter message is received.
     */
    method UserAdded(directory: map<string, Bag>, userId: string, channelId: string)
      requires Valid() && userId in directory
      modifies this`users, this`received
      ensures Valid()
      ensures var snap := directory[userId];
        var id := Field(snap, "id");
        var key := KeyOf(id);
        var base := if HasId(snap) then Refreshed(Lookup(old(users), key, id), snap) else Lookup(old(users), key, id);
        && users == old(users)[key := WithRoom(base, channelId)]
        && received == old(received) + [EnterMsg(users[key])]
    {
      var snap := directory[userId];
      var id := Field(snap, "id");
      var key := KeyOf(id);
      ghost var base := if HasId(snap) then Refreshed(Lookup(users, key, id), snap) else Lookup(users, key, id);
      UserChange(snap);
      assert Lookup(users, key, id) == base;
      var user := PlaceInRoom(key, id, channelId);
      received := received + [EnterMsg(user)];
    }

    /**
     * A `user_removed` event (src/index.js:267-273): the broadcast channel
     * becomes the user's room and one Leave message is received; the cache
     * entry stays.
     */
    method UserRemoved(directory: map<string, Bag>, userId: string, channelId: string)
      requires Valid() && userId in directory
      modifies this`users, this`received
      ensures Valid()
      ensures old(users).Keys <= users.Keys
      ensures var id := Field(directory[userId], "id");
        var key := KeyOf(id);
        && users == old(users)[key := WithRoom(Lookup(old(users), key, id), channelId)]
        && received == old(received) + [LeaveMsg(users[key])]
    {
      var id := Field(directory[userId], "id");
      var user := PlaceInRoom(KeyOf(id), id, channelId);
      received := received + [LeaveMsg(user)];
    }

    /** One `postMessage(str, channel)` per string, in order (src/index.js:159, 166, 175). */
    method PostEach(strings: seq<string>, channel: Value)
      modifies this`calls
      ensures calls == old(calls) + Posts(strings, channel)
    {
      for i := 0 to |strings|
        invariant |calls| == |old(calls)| + i && calls[..|old(calls)|] == old(calls)
        invariant forall j :: 0 <= j < i ==> calls[|old(calls)| + j] == PostMessage(strings[j], channel)
      {
        calls := calls + [PostMessage(strings[i], channel)];
      }
      assert calls == old(calls) + Posts(strings, channel);
    }

    /**
     * `send(envelope, ...strings)` (src/index.js:151-180): the strings are
     * posted to the room's route at once, or, for a user with no cached DM
     * channel, exactly one DM-channel request is made and left outstanding.
     */
    method Send(env: Envelope, strings: seq<string>, named: Option<string>, channels: map<string, Value>)
      requires Valid() && (named.Some? ==> named.value in users)
      modifies this`calls, this`pending
      ensures Valid()
      ensures var route := Resolve(users, channels, env.room, named);
        && calls == old(calls) + SendCalls(route, strings)
        && pending == old(pending) + PendingFor(route, PostAll(strings))
    {
      var route := Resolve(users, channels, env.room, named);
      match route
      case RequestDm(key, userId) =>
        calls := calls + [GetDmChannel(userId)];
        pending := pending + [PendingDm(key, PostAll(strings))];
      case _ =>
        PostEach(strings, route.channel);
    }

    /**
     * `reply(envelope, ...strings)` (src/index.js:182-223). With replies
     * turned off it is `send`. Otherwise it makes exactly one call at once:
     * the threaded reply to the room's route, or the DM-channel request, with
     * the reply left outstanding.
     */
    method Reply(env: Envelope, strings: seq<string>, named: Option<string>, channels: map<string, Value>, now: int)
      requires Valid() && (named.Some? ==> named.value in users)
      requires !noReply ==> loggedIn
      modifies this`calls, this`pending
      ensures Valid()
      ensures var route := Resolve(users, channels, env.room, named);
        if noReply then
          && calls == old(calls) + SendCalls(route, strings)
          && pending == old(pending) + PendingFor(route, PostAll(strings))
        else
          var draft := ReplyDraft(env.user, strings, env.messageId, now, selfId);
          && calls == old(calls) + ReplyCalls(route, draft)
          && pending == old(pending) + PendingFor(route, PostReply(draft))
    {
      if noReply {
        Send(env, strings, named, channels);
        return;
      }
      var draft := ReplyDraft(env.user, strings, env.messageId, now, selfId);
      var route := Resolve(users, channels, env.room, named);
      match route
      case RequestDm(key, userId) =>
        calls := calls + [GetDmChannel(userId)];
        pending := pending + [PendingDm(key, PostReply(draft))];
      case _ =>
        calls := calls + [ReplyCall(draft, route.channel)];
    }

    /**
     * The callback of the `i`-th outstanding DM-channel request, with the
     * channel the server returned (src/index.js:171-179, 218-222): the
     * channel is cached as the user's DM channel and the waiting strings or
     * reply are posted to it. On a record without a provider bag the callback
     * fails at its first statement, so nothing is cached or posted.
     */
    method CompleteDm(i: nat, channelId: string)
      requires Valid() && i < |pending|
      modifies this`users, this`calls, this`pending
      ensures Valid()
      ensures pending == old(pending[..i] + pending[i + 1..])
      ensures var req := old(pending[i]);
        var user := old(users[req.key]);
        if HasMm(user) then
          && users == old(users)[req.key := WithDm(user, Str(channelId))]
          && calls == old(calls) + Completion(req.next, Str(channelId))
        else users == old(users) && calls == old(calls)
    {
      var req := pending[i];
      assert req in pending;
      pending := pending[..i] + pending[i + 1..];
      assert forall p :: p in pending ==> p in old(pending);
      var user := users[req.key];
      if !HasMm(user) {
        return;
      }
      users := users[req.key := WithDm(user, Str(channelId))];
      match req.next
      case PostAll(strings) =>
        PostEach(strings, Str(channelId));
      case PostReply(draft) =>
        calls := calls + [ReplyCall(draft, Str(channelId))];
    }

    /**
     * `slackAttachmentMessage(data)` called on the adapter
     * (src/index.js:275-297).
     */
    method SlackAttachmentMessage(data: AttachmentData)
      modifies this`calls
      ensures calls == old(calls) + AttachmentCalls(data, botName)
    {
      if !Truthy(data.room) {
        return;
      }
      calls := calls + [CustomMessage(Attachment(AttachmentPayload(data, botName)), data.room)];
    }

    /** `changeHeader(channel, header)` (src/index.js:299-308). */
    method ChangeHeader(channels: map<string, Value>, channel: Option<string>, header: Option<string>)
      returns (outcome: HeaderOutcome)
      modifies this`calls
      ensures outcome == HeaderUpdate(channels, channel, header)
      ensures calls == old(calls) + (if outcome.Updated? then [outcome.call] else [])
    {
      if channel.None? || header.None? {
        return Skipped;
      }
      if channel.value !in channels {
        return ChannelNotFound;
      }
      var call := SetChannelHeader(channels[channel.value], header.value);
      calls := calls + [call];
      return Updated(call);
    }
  }
}
