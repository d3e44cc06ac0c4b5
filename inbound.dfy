/**
 * Inbound normalisation: how a post from the chat server is shaped into the
 * message the bot framework receives (`message`, src/index.js:225-256), and
 * the message records of the framework (`TextMessage`, `EnterMessage`,
 * `LeaveMessage` and the adapter's `AttachmentMessage`, src/index.js:10-19).
 */
module Inbound {
  import opened Js
  import opened Identity

  /** The channel type the server gives a direct-message conversation. */
  const DirectChannel: string := "D"

  /** A post, as parsed from the event's `data.post`. */
  datatype Post = Post(id: Value, userId: string, channelId: string, message: string, fileIds: Value)

  /** A `message` event of the server: `data.sender_name`, `data.channel_type`, `data.post`. */
  datatype MessageEvent = MessageEvent(senderName: string, channelType: string, post: Post)

  /** What the adapter hands to the bot framework's `receive`. */
  datatype Received =
    | TextMsg(user: User, text: string, id: Value)
    | AttachmentMsg(user: User, text: string, fileIds: Value, id: Value)
    | EnterMsg(user: User)
    | LeaveMsg(user: User)

  /** ASCII case folding, the case-insensitivity of the `i` regular-expression flag. */
  function Fold(c: char): char
  {
    if 'A' <= c <= 'Z' then (c as int + 32) as char else c
  }

  /** `text` begins with `prefix`, ignoring case. */
  predicate StartsWithFolded(text: string, prefix: string)
  {
    |prefix| <= |text| && forall i :: 0 <= i < |prefix| ==> Fold(text[i]) == Fold(prefix[i])
  }

  /** The test `/^@?<botName>/i` of src/index.js:242. */
  predicate MentionsBot(botName: string, text: string)
  {
    StartsWithFolded(text, botName) || (|text| > 0 && text[0] == '@' && StartsWithFolded(text[1..], botName))
  }

  /**
   * The text handed to the framework (src/index.js:240-244): in a direct
   * message, text that does not already address the bot is prefixed with the
   * bot's name, so that every direct message reads as addressed to the bot.
   */
  function ShapeText(botName: string, channelType: string, text: string): (r: string)
    ensures r == text || r == botName + " " + text
    ensures r != text <==> channelType == DirectChannel && !MentionsBot(botName, text)
    ensures channelType == DirectChannel ==> MentionsBot(botName, r)
  {
    if channelType == DirectChannel && !MentionsBot(botName, text) then
      var r := botName + " " + text;
      assert forall i :: 0 <= i < |botName| ==> r[i] == botName[i];
      r
    else text
  }

  /** Shaping is idempotent: shaped text is left as it is. */
  lemma ShapeTextIdempotent(botName: string, channelType: string, text: string)
    ensures ShapeText(botName, channelType, ShapeText(botName, channelType, text))
         == ShapeText(botName, channelType, text)
  {
  }

  /**
   * The sender's record after it has been seen posting (src/index.js:238,
   * 245): `room` is the post's channel and, in a direct message, so is the
   * cached DM channel; everything else is as it was.
   */
  function Stamp(sender: User, ev: MessageEvent): (r: User)
    requires ev.channelType == DirectChannel ==> HasMm(sender)
    ensures r.Keys == sender.Keys + {"room"} && r["room"] == Str(ev.post.channelId)
    ensures forall k :: k in sender && k != "room" && k != "mm" ==> r[k] == sender[k]
    ensures ev.channelType == DirectChannel ==> HasMm(r) && DmField(r) == Str(ev.post.channelId)
    ensures ev.channelType != DirectChannel && "mm" in sender ==> r["mm"] == sender["mm"]
    ensures ev.channelType != DirectChannel ==> DmField(r) == DmField(sender)
    ensures HasMm(sender) ==> HasMm(r) && forall k :: k in sender["mm"].fields && k != DmKey ==>
      k in r["mm"].fields && r["mm"].fields[k] == sender["mm"].fields[k]
  {
    var roomed := WithRoom(sender, ev.post.channelId);
    if ev.channelType == DirectChannel then WithDm(roomed, Str(ev.post.channelId)) else roomed
  }

  /**
   * The message received for a post (src/index.js:249-253): an attachment
   * message exactly when the post carries `file_ids`, a text message
   * otherwise, each with the shaped text and the post's id.
   */
  function Classify(sender: User, text: string, post: Post): (r: Received)
    ensures r.AttachmentMsg? <==> !Nullish(post.fileIds)
    ensures r.TextMsg? || r.AttachmentMsg?
    ensures r.user == sender && r.text == text && r.id == post.id
    ensures r.AttachmentMsg? ==> r.fileIds == post.fileIds
  {
    if !Nullish(post.fileIds) then AttachmentMsg(sender, text, post.fileIds, post.id)
    else TextMsg(sender, text, post.id)
  }
}
