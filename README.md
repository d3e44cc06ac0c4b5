# hubot-matteruser: the Mattermost adapter for Hubot, modelled in Dafny

The adapter connects a Hubot robot to a Mattermost server. Inbound events
from the server (posts, users added to or removed from a channel, profile
loads) are normalised into messages for the bot framework. Outbound `send`
and `reply` calls are routed to a channel, to a cached direct-message (DM)
channel, or to a DM channel that is first requested from the server. Two
handlers build a single wire call each: the Slack-style attachment bridge
and the channel-header update.

The model is a `class Adapter` (module `Matteruser`, `adapter.dfy`). Its
state is:

- the brain's user cache `users` (id to user record);
- the bot's identity (`selfId`, `botName`, `loggedIn`);
- the two configuration values (`noReply`, `ignoreUsers`);
- the trace of calls made into the chat client (`calls`);
- the messages handed to the framework's `receive` (`received`);
- the DM-channel requests whose callback has not run yet (`pending`).

`Valid()` says that every pending request is for a cached user. Each method
keeps it and states its whole new state. The pure parts each live in a
module of their own:

- `Js` (`js.dfy`): JS values, property reads, truthiness and string coercion.
- `Identity` (`identity.dfy`): the user-record merge of `userChange`, with the
  two key-copy loops as methods proved against the merge function.
- `Inbound` (`inbound.dfy`): text shaping, sender stamping and message
  classification.
- `Outbound` (`outbound.dfy`): routing of room tokens, the call sequences of
  `send` and `reply`, DM completion, and the attachment and header payloads.

The environment is passed in:

- `client.users` is a `directory` map from id to snapshot;
- `findChannelByName` is a `channels` map from name to channel id;
- the user `robot.brain.userForName` finds for a room token is the parameter
  `named`, the key of a cached user or `None`;
- `Date.now()` is the parameter `now`.

The asynchronous `getUserDirectMessageChannel` is split in two. The request
appends a `GetDmChannel` call and a `PendingDm`. `CompleteDm` runs the
callback with the channel the server returned.

## Model

| member | source | states |
|---|---|---|
| Matteruser.Adapter.constructor | src/index.js:39-40 | the cache is the stored brain data, the configuration is the given reply mode and ignore list, and every trace is empty |
| Matteruser.Adapter.LoggedIn | src/index.js:128-133 | the bot takes the logged-in user's id as its own and that user's name as the robot name |
| Matteruser.Adapter.UserChange | src/index.js:100-126 | a snapshot with a null or absent id changes nothing; otherwise only the entry for the id's key changes, to the refreshed record of its previous record (or a new one for that id) |
| Identity.ProviderBag | src/index.js:108-115 | the provider bag built by the first copy loop is the kept DM channel overwritten by every snapshot field |
| Identity.CarryOver | src/index.js:116-123 | the second copy loop adds exactly the previous keys the fresh record lacks, with fresh fields winning |
| Identity.BuildRecord | src/index.js:104-123 | the record the two loops build is the merge `NewRecord` of the previous record and the snapshot |
| Identity.RefreshedRecord | src/index.js:100-125 | after `userChange`, the record holds the snapshot's id, `name = username`, `real_name = first_name + " " + last_name` and `email_address = email`; every snapshot field is in `mm`; the old DM channel is kept when the snapshot has none; every other old key is kept |
| Identity.RefreshedIdempotent | src/index.js:100-125 | applying the same snapshot twice stores what applying it once stores |
| Identity.DmSurvivesRefreshes | src/index.js:110-111 | any series of snapshots without a `dm_channel_id` leaves the cached DM channel as it was |
| Matteruser.Adapter.ProfilesLoaded | src/index.js:135-140 | the cache becomes the old cache overlaid with the refreshed record of every directory user, whatever order the loop visits them in |
| Identity.DirectoryStep | src/index.js:136-139 | refreshing one more directory user of a partly refreshed cache gives the overlay with that user included |
| Identity.DirectoryKeys | src/index.js:135-140 | after refreshing a directory, the cache holds the users it held plus every directory user |
| Identity.DirectoryUsersRefreshed | src/index.js:135-140 | each directory user ends up refreshed from the record held before the loop, or from a new one |
| Identity.DirectoryOthersKept | src/index.js:135-140 | a cached user the directory does not list is unchanged |
| Matteruser.Adapter.BrainLoaded | src/index.js:142-149 | `brainLoaded`, called on the adapter, refreshes the cache exactly as `profilesLoaded` does |
| Inbound.ShapeText | src/index.js:240-244 | the text is the raw message or the bot name, a space and the message; it is prefixed exactly when the channel is direct and the text does not begin with an optional `@` and the bot's name, ignoring case; in a direct channel the result always addresses the bot |
| Inbound.Stamp | src/index.js:237-246 | the sender's room becomes the post's channel; in a direct channel the cached DM channel becomes the post's channel; outside one the DM channel and the provider bag are untouched; other fields are unchanged |
| Inbound.Classify | src/index.js:249-253 | an attachment message exactly when `file_ids` is not null or undefined, else a text message; both carry the sender, the shaped text and the post id, and the attachment message carries the file ids |
| Matteruser.Adapter.Message | src/index.js:225-256 | a post is accepted exactly when its sender is not ignored and it is not the bot's own; a rejected post changes neither the cache nor the received messages; an accepted one changes only the sender's entry, to its stamped record, and receives exactly one classified message with the shaped text |
| Matteruser.Adapter.UserAdded | src/index.js:258-265 | the user is refreshed from the directory snapshot, the broadcast channel becomes their room, only their entry changes, and one Enter message for that record is received |
| Matteruser.Adapter.UserRemoved | src/index.js:267-273 | the broadcast channel becomes the user's room, no entry is removed, only theirs changes, and one Leave message for that record is received |
| Outbound.ChannelFor | src/index.js:158-159 | a room token that is not a user goes to the id of the channel found by that name, or to the token itself when none is found |
| Outbound.Resolve | src/index.js:154-171 | a token that names a user always gives a DM route; that route is the cached DM channel when there is one and a DM-channel request for the user's id exactly when there is none; any other token gives a channel route |
| Outbound.Posts | src/index.js:159-159 | one `postMessage` per string, in argument order, to the same channel |
| Matteruser.Adapter.PostEach | src/index.js:159-175 | the posting loop appends exactly the posts of the strings, in order |
| Outbound.SendCalls | src/index.js:151-180 | `send` makes exactly one DM-channel request when the route needs one and then posts nothing yet; otherwise it posts every string to the route's channel and makes no request |
| Outbound.PendingFor | src/index.js:171-179 | exactly a requested DM route leaves one callback outstanding, for that user and with the work it will do |
| Matteruser.Adapter.Send | src/index.js:151-180 | the calls and outstanding callbacks grow by exactly those of the resolved route |
| Outbound.ReplyDraft | src/index.js:187-197 | the reply's message is `"@" + envelope.user.name + " " + strings[0]` (undefined when there are no strings), its `root_id` and `parent_id` are the message id, `create_at` is the time given, `user_id` is the bot's id and `filename` is empty |
| Outbound.ReplyCall | src/index.js:204-205 | the reply is posted with `customMessage` to the channel, with its `channel_id` set to that channel |
| Outbound.ReplyCalls | src/index.js:199-215 | a reply makes exactly one call at once: the DM-channel request when the route needs one, otherwise the threaded reply to the route's channel |
| Matteruser.Adapter.Reply | src/index.js:182-223 | with replies turned off it has exactly the effect of `send`; otherwise the calls grow by the one call of the route, and a requested DM leaves the reply outstanding |
| Outbound.Completion | src/index.js:218-222 | a completed request posts the waiting strings, or the waiting reply, to the new channel and makes no further request |
| Matteruser.Adapter.CompleteDm | src/index.js:171-179 | the callback is no longer outstanding; on a record with a provider bag, the returned channel is cached as the user's DM channel and the waiting work is posted there; on a record without one, nothing else changes |
| Outbound.CachedDmIsReused | src/index.js:165-168 | once a user's DM channel is cached, a message for that user goes there and makes no DM-channel request |
| Outbound.OneRequestPerDmChannel | src/index.js:163-179 | for a user without a DM channel, the first send requests one, its completion caches it, and a later send goes to it: one request in all |
| Outbound.RefreshKeepsDmRoute | src/index.js:110-111 | refreshing a user from a snapshot that has no DM channel does not change where their messages go |
| Outbound.AttachmentList | src/index.js:282-283 | missing or falsy attachments give the empty list, an array gives its items, any other value gives a one-element list |
| Outbound.AttachmentPayload | src/index.js:277-294 | the post is of type `slack_attachment`, to the room, with the event's text and the attachment list; a truthy user name other than the bot's gives `as_user = false`, that name and the icon URL in preference to the emoji; otherwise `as_user = true` and no override |
| Outbound.AttachmentCalls | src/index.js:275-297 | no call without a truthy room, otherwise exactly one attachment post to that room, and never a DM request |
| Matteruser.Adapter.SlackAttachmentMessage | src/index.js:275-297 | `slackAttachmentMessage`, called on the adapter with the event data, grows the calls by exactly those of that data |
| Outbound.HeaderUpdate | src/index.js:299-308 | nothing happens without a channel or a header; an unknown channel name is the not-found outcome; otherwise there is exactly one header update of the found channel's id with the header |
| Matteruser.Adapter.ChangeHeader | src/index.js:299-308 | the outcome is that of the header update, and the calls grow by its call exactly when the update happens |

## Left out

- `run()` (src/index.js:22-78) is not modelled: environment parsing, the exits on missing configuration, client construction, listener registration and login. The reply mode and the ignore list are constructor parameters.
- `open`, `error`, `onHello`, `onConnected` and every logger call are not modelled: they only log or re-emit events. The "Channel not found" log of `changeHeader` is the `ChannelNotFound` outcome.
- `JSON.parse` of the post is not modelled. The post is given already parsed, and parse failure is out of scope.
- `Date.now()` is the parameter `now` of `Reply`.
- The Hubot brain and the Mattermost client are not part of this model. `userForId` is "the cached record, or a new record holding only the id". Hubot's extra rules for new records (a name defaulting to the id, seeding from options) are not modelled. `userForName` is an unspecified lookup that returns a cached key or nothing. It is a parameter `named` of each `Send` and `Reply`, so the model does not promise that two calls with the same room and the same cache find the same user. `getUserByID` is a lookup in the directory map.
- The bot name is used as a literal, case-insensitive prefix after an optional `@`. Regular-expression metacharacters in the name are not interpreted. Case folding is ASCII only.
- JS numbers are integers only. Inherited object properties, and the enumeration order of `for ... in`, are not modelled. `ProfilesLoaded` is proved for every visiting order.
- The `AttachmentMessage` constructor (src/index.js:12-17) uses `this` before `super`, which JS rejects at run time. It is modelled as the plain record `(user, text, file_ids, id)` it evidently means to build.
- The code strips no Markdown heading marker and builds no trimmed-text variant of the message; the model has neither.
- The event registrations of `brainLoaded` and `slackAttachmentMessage` (src/index.js:72-75) are not modelled. Unlike the handlers bound at src/index.js:23-31, these two are registered unbound, so when the brain's `loaded` event or a `slack-attachment` / `slack.attachment` event calls them, `this` is the emitter, not the adapter. `brainLoaded` would then fail at `this.robot.logger` (src/index.js:143) before refreshing anyone. `slackAttachmentMessage` with a truthy room would fail at `this.robot.name` (src/index.js:284) or `this.client` (src/index.js:296) and make no call. The model's `BrainLoaded` and `SlackAttachmentMessage` are the two methods as called on the adapter.
- Matteruser.Adapter.Message: requires a logged-in bot for a post whose sender is not ignored, because the code reads `self.id`. In a direct channel it also requires the sender to be cached with a provider bag `mm`, because the code writes `user.mm.dm_channel_id` and fails otherwise. Those failures are not modelled.
- Matteruser.Adapter.Reply: requires a logged-in bot when replies are threaded, for the same reason.
- Matteruser.Adapter.UserAdded: requires the user to be in the client directory, because the code reads the snapshot's `id` and fails otherwise. The same holds for Matteruser.Adapter.UserRemoved.
- Matteruser.Adapter.ProfilesLoaded: requires the client directory to be keyed by each user's own id, as the client's user map is. The same holds for Matteruser.Adapter.BrainLoaded.
- Matteruser.Adapter.CompleteDm: writes the DM channel to the user's current cache entry, by key. The code writes to the record object it found at request time. If that record was replaced in between, the code's write is lost, and this aliasing is not modelled. For example, a `send` to a user without a DM channel captures their record; a `profilesLoaded` or `user_added` then replaces it, copying the still-undefined DM channel; the callback writes to the old record, and the next `send` to that user requests a DM channel again. The one-request promise of `OneRequestPerDmChannel` therefore holds in the code only when no refresh of that user falls between the request and its completion.
- Outbound.ReplyDraft: the mentions of the later strings are built but never sent by the code. They are not part of the model's draft.
