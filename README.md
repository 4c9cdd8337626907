# Slack bot plugin for the PicoGW gateway, modelled in Dafny

The plugin (`index.js`) lets a PicoGW gateway post text into Slack channels and relays
bot mentions back onto the gateway's publish bus. This project models its own logic:

- the call handler `onProcCall(method, path, args)`: the descriptor for `GET /`, the
  deliberate fall-through from `GET` on a non-empty path into the `POST` handling, the
  fixed order of the checks (path, then text, then bot handle), and the fan-out of one
  text to every postable channel (`Calls.Respond`, implemented with its `forEach` loop by
  `Plugin.Adapter.OnProcCall`);
- the channel lister `getChannelsList`: keep the channels the bot is a member of and that
  are not archived, in order, projected to `{id, name, purpose}` (module `Channels`);
- the settings hook `onUISetSettings`: store a present `bottoken`, blank it in the returned
  record, re-run `initSlack` (`Plugin.Adapter.OnUISetSettings`);
- `initSlack`'s early return when no token is stored (`Plugin.Adapter.InitSlack`);
- the inbound-mention split: topic = text before the first space, `params` = the trimmed
  rest, published once (`Plugin.Command`, `Plugin.Params`, `Plugin.Adapter.OnMention`);
- the JavaScript string operations these rely on: `trim`, `split`, `join` (module `JsText`).

The plugin's module-level state (`slackBot`, `pi`) is the class `Plugin.Adapter`:
`botPresent` stands for `slackBot` being set, `store` for `pi.localStorage`, `said` and
`published` record the `say` and `publish` calls, and `initCount` counts runs of `initSlack`.
The SDK is replaced by inputs: the outcome of `channels.list` is a `Listing` parameter, and
whether `spawn(...).startRTM(...)` returned a handle without throwing is a `sdkOk` parameter.
The promise the handler returns is modelled by the value it settles with; a rejection is the
`Rejected` reply.

Three behaviours of the code a reader may not expect:

- `PUT` and `DELETE` are refused as "not implemented" whatever the path; they never reach
  the "path is not supported" check (index.js:78-82).
- `GET` on a non-empty path behaves like `POST` on that same path, so `GET /foo` is refused
  as an unsupported path; only `GET /post` posts (index.js:55-59).
- The mention is split on the first space character only, not on other white space
  (index.js:138); the remainder is trimmed of all JavaScript white space (index.js:139).

## Model

| member | source | states |
|---|---|---|
| JsText.TrimStart | index.js:139 | the result is a suffix of the input starting with a kept character; everything dropped is white space |
| JsText.TrimEnd | index.js:139 | the result is a prefix of the input ending with a kept character; everything dropped is white space |
| JsText.Trim | index.js:139 | `trim` yields the slice between the white space at either end and neither starts nor ends with white space |
| JsText.TrimOfPadded | index.js:139 | white-space padding around a core with kept ends is exactly what `trim` removes |
| JsText.TrimIdempotent | index.js:139 | trimming twice equals trimming once |
| JsText.PrefixBefore | index.js:138 | the text before the first separator is a separator-free prefix, followed by the separator unless it is the whole text |
| JsText.Split | index.js:138 | `split` yields at least one piece, the first being the text before the first separator, and no piece contains the separator |
| JsText.SplitJoin | index.js:75 | splitting on `,` undoes joining with `,` for non-empty lists of comma-free names |
| JsText.JoinSplit | index.js:138 | joining the pieces of `split(c)` with `c` gives back the text, for every text |
| JsText.Join | index.js:75 | no contract of its own; stated by `JsText.SplitJoin` and `JsText.JoinSplit` |
| Channels.Members | index.js:100-101 | the filter keeps only postable channels taken from the listing, never more than were listed |
| Channels.ProjectAll | index.js:102-108 | no contract beyond the element-wise definition it is written as; its properties are stated by `Channels.VisibleAt` and `Channels.VisibleAppend` |
| Channels.Visible | index.js:100-108 | no contract of its own (filter, then projection); stated by `Channels.VisibleExactly`, `Channels.VisibleAppend`, `Channels.VisibleAt` and `Channels.ArchivedChannelDropped` |
| Channels.VisibleAppend | index.js:100-108 | the filtered, projected list of a concatenated listing is the concatenation of the two lists: the listing's order survives the projection |
| Channels.VisibleAt | index.js:102-108 | the k-th visible channel carries the id, name and purpose of the k-th postable listed channel |
| Channels.GetChannelsList | index.js:90-112 | no contract of its own: without a handle it rejects with `Bot is not defined yet`, on an SDK error with that error, otherwise gives `Visible`; its uses are stated by `Calls.ListingFailureRejects`, `Calls.PostFansOut` and `Calls.BotUndefinedUnreachable` |
| Channels.MembersExactly | index.js:100-101 | a channel survives the filter if and only if it is listed, a member and not archived |
| Channels.MembersAppend | index.js:100-101 | the filter distributes over concatenation, so the listing's order is kept |
| Channels.MembersAllPostable | index.js:100-101 | a listing of postable channels passes unchanged |
| Channels.MembersNonePostable | index.js:100-101 | a listing with no postable channel yields nothing |
| Channels.VisibleExactly | index.js:100-108 | a projected channel is listed if and only if some listed postable channel projects to it |
| Channels.ArchivedChannelDropped | index.js:100-108 | with a joined channel C1 and an archived channel C2, only C1 is kept |
| Calls.Names | index.js:75 | no contract beyond the element-wise definition it is written as; its meaning for the success message is stated by `Calls.VisibleNames` |
| Calls.VisibleNames | index.js:75 | the names in the success message are those of the postable listed channels, one per channel, in listing order |
| Calls.SuccessMessage | index.js:75 | no contract of its own; its shape and the recoverability of the names are stated by `Calls.SuccessNamesReadable` |
| Calls.DescriptorFor | index.js:48-53 | no contract of its own; stated by `Calls.DescriptorOnRoot` |
| Calls.PostRequest | index.js:56-77 | no contract of its own: the post handling shared by `POST` and the `GET` fall-through; stated by `Calls.PathCheckedFirst`, `Calls.MissingTextRefused`, `Calls.MissingBotRefused`, `Calls.PostFansOut`, `Calls.ListingFailureRejects` |
| Calls.Respond | index.js:45-84 | no contract of its own: the reply and `say` calls of `onProcCall`; stated by the `Calls` lemmas in this table, and implemented by `Plugin.Adapter.OnProcCall` |
| Calls.BotUndefinedUnreachable | index.js:63-65 | the lister's own `Bot is not defined yet` rejection (index.js:92) never becomes the handler's reply, since the bot handle is checked first |
| Calls.Broadcast | index.js:69-74 | one `say` per channel, in order, each carrying the same text and that channel's id |
| Calls.BroadcastAppend | index.js:69-74 | the fan-out distributes over concatenation of channel lists |
| Calls.DescriptorOnRoot | index.js:47-53 | `GET` on the empty path gives `{post: {text: '[TEXT TO SAY]'}}` with `_info.doc.short` exactly when `args.info` is `'true'`, and issues no `say` |
| Calls.GetFallsThrough | index.js:55-56 | `GET` on a non-empty path gives the same reply and `say` calls as `POST` on that path |
| Calls.PathCheckedFirst | index.js:57-59 | a path other than `post` is refused with `path <path> is not supported.` whatever the text, bot or listing |
| Calls.MissingTextRefused | index.js:60-62 | missing or empty text on `post` is refused with `No text to say.` whatever the bot state, and no `say` |
| Calls.MissingBotRefused | index.js:63-65 | non-empty text without a bot handle is refused with `Slack token is not properly set.`, and no `say` |
| Calls.OtherMethodsRefused | index.js:78-82 | every method other than `GET` and `POST` is refused with `The specified method <method> is not implemented in admin plugin.` |
| Calls.PostNeverUnimplemented | index.js:56-82 | `POST` never yields the not-implemented error: its second `case` is dead |
| Calls.PostFansOut | index.js:67-76 | on success, one `say` per postable channel in listing order with the call's text, and the message `Successfully posted to channels [` + names joined by `,` + `]` |
| Calls.ListingFailureRejects | index.js:76 | an SDK listing error rejects the call with that error and issues no `say` |
| Calls.SaysOnlyOnSuccess | index.js:45-84 | any `say` at all means a successful post to `post` with a bot handle, and the `say` calls are exactly the fan-out of the call's text to the postable channels |
| Calls.SuccessNamesReadable | index.js:75 | the success message is the prefix, the names joined by `,`, and `]`, and splitting its inner part recovers the names when none has a comma |
| Calls.ScenarioOnlyGeneral | index.js:67-75 | posting "hi" to a joined C1 "general" and an archived C2 says only to C1 and reports `[general]` |
| Plugin.Redacted | index.js:29-34 | a present token is blanked to `''`, an absent one stays absent, every other field is unchanged |
| Plugin.RedactedKeepsTokenless | index.js:29-34 | a record without a token is returned unchanged |
| Plugin.RedactedIdempotent | index.js:31 | blanking an already blanked record changes nothing |
| Plugin.InitError | index.js:121-128 | `initSlack` goes on to connect exactly when a token is stored and the SDK hands back a handle; otherwise it returns `Please set Slack bot API token first.` |
| Plugin.Command | index.js:138 | the topic is a space-free prefix of the text, followed by a space unless it is the whole text |
| Plugin.Params | index.js:139 | no contract of its own; stated by `Plugin.MentionOfWord` and `Plugin.MentionWithoutSpace` |
| Plugin.MentionSplits | index.js:138-139 | the command followed by the rest of the text is the text |
| Plugin.MentionOfWord | index.js:138-139 | for `w rest` with `w` space-free, the topic is `w` and the params are `rest` trimmed |
| Plugin.MentionWithoutSpace | index.js:138-139 | a text without a space is all topic, with empty params |
| Plugin.Adapter.constructor | index.js:16-20 | `init` takes the host store, runs `initSlack` once, starts with no `say` and no `publish` |
| Plugin.Adapter.InitSlack | index.js:119-133 | without a stored token or when the SDK throws, the masked error and the handle unchanged; otherwise the handle is set; each run is counted |
| Plugin.Adapter.OnUISetSettings | index.js:28-35 | a present token is stored under `bottoken`, blanked in the result and re-initialisation runs once; otherwise store, handle and count are unchanged and the record comes back as it was |
| Plugin.Adapter.OnProcCall | index.js:45-84 | the reply and the `say` calls appended to the log are exactly those of `Calls.Respond`, the loop issuing one `say` per channel |
| Plugin.Adapter.SayToAll | index.js:69-74 | the `forEach` loop appends exactly the fan-out of the text to the channels, one `say` per channel in order |
| Plugin.Adapter.OnMention | index.js:137-142 | exactly one publish is appended: topic `Command(text)`, params `Params(text)` |

## Left out

- Botkit and the Slack SDK (`require('botkit')`, `controller.spawn`, `startRTM`, `channels.list`): foreign calls, replaced by the `Listing` and `sdkOk` inputs.
- The `startRTM` callback (index.js:129-143): it runs later, reassigns `slackBot` and registers the mention listener; the model lets `OnMention` be called at any time and does not model the "Could not connect to Slack" branch, whose value nobody receives.
- Plugin.Adapter.InitSlack: treats any exception of the SDK chain as happening before `slackBot` is assigned; which SDK calls throw cannot be seen.
- Promises and asynchrony (index.js:67-77, 95-111): the reply is the value the promise settles with, and the listing is a completed result. A falsy SDK `err` (such as `''`) takes the success path at index.js:97; `ListError` stands for a truthy one.
- The `getChannelsList` rejection `Bot is not defined yet` (index.js:91-93) is modelled in `Channels.GetChannelsList`, but the handler checks the bot first, so it never reaches the handler's reply.
- Logging (index.js:2, 18, 140) and the host's publish transport: a publish is one record appended to `published`.
- JavaScript loose equality in `args.text == ''` and `args.text == null`: `text` is an optional string. Missing `args` on a call that reads `args.text` makes the JavaScript throw; the model requires `args` there.
- Aliasing of the settings object: the source blanks `bottoken` in the caller's object and returns that same object; the model returns the blanked record as a value.
- Channel `purpose` is an opaque string, and settings fields other than `bottoken` are an opaque string map.
- Strings are sequences of Unicode scalar values, while JavaScript strings are UTF-16 code units, so a lone surrogate cannot be represented; the characters the plugin splits on (`' '`, `','`) and every character `trim` removes lie in the Basic Multilingual Plane, so the modelled operations are unaffected.
- The join separator is modelled as one character, which is what the source uses (`','`).
