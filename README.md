# Points and marketplace bot, modelled in Dafny

This project models the core of a Discord bot. The bot keeps a points
ledger (`/good`, `/balance`, `/reset`, `/leaderboard`). It also runs a
marketplace review workflow:

- A member fills in a submission form.
- The bot posts a review message in the guild's submissions channel. The
  submission is stored in that message's text, as a fenced JSON block.
- Moderators approve the submission, decline it with a reason, or ask the
  submitter for images by direct message.
- The submitter has 24 hours to reply with images. The bot then merges them
  into the review message.

The model has one module per part:

| area | module | what it is |
|---|---|---|
| tables | `Database` | `database.js`: the `points` and `marketplace_config` tables as a `Store` class with two map fields |
| permissions | `Permissions` | the permission gates |
| routing | `Router` | the custom-id routing of buttons and forms |
| storage | `SubmissionJson` | the `JSON.stringify(…, null, 2)` layout of a submission and a reader for it |
| storage | `Fence` | the `/```json\n([\s\S]+?)\n```/` extraction |
| storage | `Codec` | the two storage modules above combined |
| review | `Review` | messages as values: approve, decline, request images and images received as transitions; the decline-target search and the loop over guilds |
| image requests | `ImageRequests` | the registry of pending image requests, as a class |
| handlers | `PointsCommands` | the points handlers, as methods over the store |
| handlers | `MarketplaceCommands` | the marketplace handlers, as methods over the store |
| findings | `AsWritten` | what the handlers compute as written, where their database calls lack `await` |

The handlers are modelled with their `await`s in place. Where a call into
Discord or the database can fail in a way that changes what the bot does,
the failure is a boolean input of the handler (`readFails`, `writeFails`,
`replyFails`, `sendFails`, `postFails`, `dmFails`, `editFails`,
`fetchFails`). In the loop that brings images to a review message, each guild
has its own failures. They are the input `refused`, which maps a guild id to
the Discord call that throws there: the embed edit, the content edit or the
moderators' notice.

Other parts of the outside world are inputs too:

- the clock: `now`, in milliseconds;
- ids the platform assigns, such as `newMessageId`;
- the guilds the bot can see (`World`);
- the usernames `client.users.fetch` resolves (`usernames`);
- the URL check of `new URL(…)` (`isValidUrl`).

Permission checks follow discord.js: `permissions.has(p)` also holds for an
administrator.

## Model

| member | source | states |
|---|---|---|
| Decimal.DecimalString | index.js:563 | `${Date.now()}` renders a timestamp as a non-empty string of digits, a single digit exactly for values below 10 |
| Decimal.DecimalRoundTrip | index.js:563 | reading the rendered digits back gives the timestamp |
| Decimal.DecimalStringInjective | index.js:563 | different timestamps render differently |
| Decimal.IntString | index.js:255 | `${n}` of a balance is its digits, with a minus sign exactly for a negative balance, and reads back as n |
| Permissions.Allows | index.js:212-229 | the gates of all handlers: an administrator may do everything. Without Administrator or Manage Server, only an allowed role (Coaches, Moderators) grants anything, and only `/good`. Manage Server grants `/reset` and the review buttons but never setup or post. A member with none of these may do nothing |
| Router.Dispatch | index.js:156-195 | each slash command, the submit button and the two forms are routed to their own handler exactly when their id matches. A review route is reached only from that action's own button id for the submission. Any other interaction is not routed |
| Router.PrefixesDisjoint | index.js:177-186 | no button id of one review action starts with another action's prefix, so the `startsWith` chain cannot confuse them |
| Router.ReviewButtonsRoute | index.js:563-581 | each of the three buttons built for a submission is dispatched to its own handler with that submission id |
| Router.ReviewRoutesOnlyFromTheirButtons | index.js:176-186 | a button reaches approve, request-images or decline for submission s if and only if its id is exactly that button's id for s |
| Router.SubmissionIdInjective | index.js:563 | `${Date.now()}_${user.id}` determines both the timestamp and the user id |
| Database.Upsert | database.js:73-84 | the upsert gives the user the new value, leaves every other user's value and adds the user's row |
| Database.ResetOne | database.js:98-102 | the user reads 0, every other user keeps their value, and the set of users with a row is unchanged |
| Database.ResetTarget | database.js:96-110 | with a truthy user id, that user reads 0 and everybody else is unchanged; otherwise the table is emptied |
| Database.MaxRowExists | database.js:86-94 | a non-empty table has a row with the most points, the row `ORDER BY points DESC` puts first |
| Database.ListingEmptyIff | database.js:86-94 | the listing is empty if and only if the table is |
| Database.ListingCount | database.js:86-94 | the listing has exactly one row per user of the table |
| Database.TopRowsDominate | index.js:303-307 | the first k rows of the listing hold at least as many points as any user they leave out |
| Database.Store.constructor | database.js:25-49 | the tables start empty |
| Database.Store.GetPoints | database.js:55-71 | the stored value, 0 for a user without a row, and 0 when the read fails |
| Database.Store.SetPoints | database.js:73-84 | the table becomes the upsert of the value; a failed write leaves it and reports the failure |
| Database.Store.GetAllPoints | database.js:86-94 | a listing of every row exactly once, points non-increasing, each with its stored value; `[]` when the read fails |
| Database.Store.ResetPoints | database.js:96-110 | the table becomes `ResetTarget` of its old value; a failed write leaves it and reports the failure |
| Database.Store.GetMarketplaceConfig | database.js:113-129 | Some exactly when the read succeeds and the guild has a row, and then that guild's row |
| Database.Store.SetMarketplaceConfig | database.js:131-145 | both channel ids of the guild are overwritten and the keyed-by-guild invariant is kept; a failed write leaves the table |
| Database.Store.GetAllMarketplaceConfigs | database.js:147-155 | every configured guild exactly once, with its row; `[]` when the read fails |
| SubmissionJson.Encode | index.js:607 | the printed object opens with `{` and then the `messageId` entry |
| SubmissionJson.Parse | index.js:655 | text is accepted only when it opens like a printed submission; what it reads from a printed one is `EncodeRoundTrip` |
| SubmissionJson.HexRoundTrip | index.js:607 | a hex digit of a `\u00XX` escape reads back as its value |
| SubmissionJson.EscapeRoundTrip | index.js:607 | parsing a JSON-escaped string up to its closing quote gives back the string and the rest of the text |
| SubmissionJson.QuoteRoundTrip | index.js:607 | a quoted string field parses back to the string |
| SubmissionJson.ItemsRoundTrip | index.js:878 | the printed `additionalImages` items parse back to the url list |
| SubmissionJson.TailRoundTrip | index.js:878 | the printed tail of the object, with or without `additionalImages`, parses back to that field |
| SubmissionJson.EncodeRoundTrip | index.js:607 | `JSON.parse` of `JSON.stringify(submission, null, 2)` gives back every field of the submission |
| SubmissionJson.EncodeSafe | index.js:607 | the printed JSON never has a newline followed by a backtick, since string contents are escaped |
| Fence.FindClose | index.js:647 | the first closing fence at or after a position, or none at all |
| Fence.Decode | index.js:647 | a match captures a non-empty text that contains no closing fence except possibly at its first character |
| Fence.BodyRoundTrip | index.js:604-608 | a fenced non-empty payload without a closing fence is extracted exactly |
| Fence.NoOpeningNoMatch | index.js:647 | content without an opening fence has no match |
| Codec.Content | index.js:604-608 | the fenced text written to the review message gives back, under the regex, exactly the printed JSON of the submission |
| Codec.ReadContent | index.js:647-655 | no data exactly when the regex does not match |
| Codec.SafeTextHasNoClose | index.js:604-608 | text without a newline-backtick pair holds no closing fence |
| Codec.ContentRoundTrip | index.js:647-655 | the stored submission text reads back as that submission |
| Codec.ContentInjective | index.js:604-608 | different submissions are stored as different texts |
| Review.SubmissionEmbed | index.js:545-560 | the review embed has the new-submission title, the image only when its url is truthy, and five fields: title, description, price, contact and a mention of the submitter |
| Review.ReviewButtons | index.js:563-581 | one row of three buttons, which route to approve, request images and decline for this submission |
| Review.IntakeMessage | index.js:544-581 | the review message reads back as the submission, is open and is a decline target, and its three buttons route to the submission |
| Review.ListingEmbed | index.js:657-672 | the public listing shows the submission's title and description, its image only when the url is truthy, and exactly three inline fields: price, contact and a mention of the seller |
| Review.ApproveEdit | index.js:682-689 | after approval the buttons are gone, the title is the approved one, fields and image are kept and the stored data is unchanged; it is never again an open review or a decline target |
| Review.DeclineEdit | index.js:977-985 | after a decline the buttons are gone, the title is the declined one, the reason is appended and the stored data is unchanged |
| Review.FirstCandidateUnique | index.js:946-957 | at most one message is the first open submission among the fetched ones |
| Review.FindDeclineTarget | index.js:946-957 | the first of at most 50 fetched messages that is an open submission, with no candidate before it; none only when no candidate is among them |
| Review.ImageRequestEdit | index.js:756-763 | the request adds one audit field and nothing else: content, buttons, open state and decline candidacy are kept |
| Review.ReceiveImages | index.js:859-880 | the embed gets the first image and an audit field. When the content holds a submission, it is rewritten to include the images; otherwise the content is kept. A parse failure is reported after the embed edit |
| Review.ImagesKeepOtherFields | index.js:870-880 | after images arrive, `imageUrl` is the first url and `additionalImages` all urls, and every other field reads back unchanged |
| Review.ClosedReviewsStayClosed | index.js:686-689 | no operation gives a closed review its buttons back or makes it a decline target again |
| Review.FindMessage | index.js:856 | the index of the first message with the id, or none when no message has it |
| Review.FindInGuild | index.js:855-856 | the first message of the channel with the id; none exactly when the channel is missing or no message in it has the id |
| Review.Locate | index.js:854-856 | the guild, its submissions channel and the message are all found; none exactly when the guild, the channel or the message is missing |
| Review.AttemptOn | index.js:859-891 | one guild's attempt on a found message. A refused embed edit changes nothing. Otherwise the embed gets the images; the content is rewritten unless it breaks `JSON.parse` or its edit is refused. The attempt succeeds exactly when nothing threw: the content parses or has no data, neither edit was refused and the notice went out |
| Review.TryConfig | index.js:853-893 | one attempt succeeds exactly when the message is found and `AttemptOn` succeeds under that guild's refusal. The edits that went through before a throw are kept. Nothing else in the world changes |
| Review.DeliverImages | index.js:852-893 | the loop stops at the first guild where the update succeeds under its refusals, and no earlier guild succeeded. Every guild tried has had the attempt applied to its review message, including the edits made before a refused call. No other guild changes |
| ImageRequests.Register | index.js:788-797 | the user's request is replaced: it points at the new message and is honoured until exactly 24 hours from now, and nobody else's request changes |
| ImageRequests.ImageUrls | index.js:823-834 | the urls of the image attachments: none exactly when no attachment is an image, and every url comes from an image attachment |
| ImageRequests.ImageUrlsStartWithFirstImage | index.js:823-834 | when there are images, the first url, the one the embed shows, is that of the first image attachment |
| ImageRequests.ImageUrlsConcat | index.js:823-834 | the filter keeps order and multiplicity: the urls of two runs of attachments are the urls of the first followed by those of the second |
| ImageRequests.Classify | index.js:807-831 | bots, non-DM messages and users without a request are ignored. An expired request is dropped. A live one keeps waiting without images and is delivered with them, carrying the request and the urls |
| ImageRequests.RegistryAfter | index.js:817-897 | the handler only ever removes the author's own request and keeps every other. An expired request is deleted. A delivered one is deleted once the confirmation went out. A message from a bot, from outside a DM or from a user without a request, one without images, and a delivery whose confirmation failed leave the registry as it was |
| ImageRequests.FreshRequestIsHonoured | index.js:788-834 | a request registered now is delivered by any image DM from that user within the next 24 hours, and points at the latest review message |
| ImageRequests.ExpiredRequestIsNeverDelivered | index.js:817-820 | an expired request is never delivered, neither by the message that finds it expired nor by any later one |
| ImageRequests.DeliveryConsumesRequest | index.js:896-897 | once delivered, the same user's next DM is ignored |
| ImageRequests.TimerCleanupAsWritten | index.js:799-801 | the timer callback removes the user's entry whatever it holds by then |
| ImageRequests.TimerDropsRenewedRequest | index.js:799-801 | a request renewed an hour later is still live when the first timer fires, yet the timer deletes it; a sweep keeps it |
| ImageRequests.SweepExpired | index.js:817 | the sweep keeps exactly the requests that have not expired, unchanged |
| ImageRequests.SweepAgreesWithLazyExpiry | index.js:813-820 | a sweep changes no decision of the DM handler except turning "drop expired" into "ignore" |
| ImageRequests.ImageRequestRegistry.constructor | index.js:786 | the registry starts empty |
| ImageRequests.ImageRequestRegistry.SetupImageListener | index.js:788-797 | the registry becomes `Register` of its old value |
| ImageRequests.ImageRequestRegistry.Sweep | index.js:799-801 | the registry becomes `SweepExpired` of its old value |
| ImageRequests.ImageRequestRegistry.OnDirectMessage | index.js:805-905 | the registry becomes `RegistryAfter`. Without a delivery nothing else happens. A failed confirmation ends in the error reply with nothing changed. Otherwise the configurations read (all of them, or none after a failed read) are tried as `DeliverImages` states, under the refusals given |
| PointsCommands.AwardRaisesOnlyTheTarget | index.js:250-252 | an award adds exactly one point to its target, touches nobody else and keeps the table non-negative; after a failed read it sets the target to 1 |
| PointsCommands.HandleGood | index.js:212-257 | refused without permission, for a bot target and for oneself, in that order; otherwise the target's total becomes the read value plus one, or nothing changes when the write fails |
| PointsCommands.BalanceMessage | index.js:265-267 | the reply ends with the amount in bold followed by "point(s).", and for somebody else's balance starts with a mention of that user |
| PointsCommands.BalanceShowsTheAmount | index.js:265-267 | two replies for the same user are equal only when they show the same amount |
| Decimal.IntStringInjective | index.js:266 | different balances are shown differently |
| PointsCommands.HandleBalance | index.js:259-270 | the named user's balance, or the caller's own when nobody is named, as stored (0 without a row or after a failed read) |
| PointsCommands.HandleReset | index.js:272-301 | refused without Manage Server. Otherwise one user is zeroed, reporting the previous balance, or the table is emptied, reporting how many users it held. A failed write changes nothing |
| PointsCommands.Medal | index.js:330 | the first three places get 🥇, 🥈 and 🥉; every later place i gets the digits of i + 1 followed by a dot |
| PointsCommands.MedalsDistinct | index.js:330 | no two leaderboard places share a label |
| PointsCommands.PointsValue | index.js:334 | the value starts with the count in bold and ends in "points" exactly when the count is not 1 |
| PointsCommands.PointsValueInjective | index.js:334 | different point counts are shown differently |
| PointsCommands.SliceIsTopListing | index.js:304-307 | the first ten of the listing are the top ten: as many as there are users (at most ten), descending, each with its stored points, none below a user left out |
| PointsCommands.LeaderboardField | index.js:330-348 | a leaderboard field shows the row's points and is inline; its name starts with the medal when the username is known and with the place number otherwise |
| PointsCommands.BuildLeaderboard | index.js:324-350 | one field per shown row, in order: medal and username, or place and "Unknown User" when the user cannot be fetched |
| PointsCommands.HandleLeaderboard | index.js:303-353 | "no points yet" exactly when the read fails or the table is empty; otherwise the top ten of the table with one field each |
| MarketplaceCommands.HandleSetup | index.js:357-390 | refused without Administrator, refused for non-text channels; otherwise the guild's row holds the two channel ids (unchanged on a failed write) |
| MarketplaceCommands.HandlePost | index.js:392-436 | refused without Administrator. Refused when the guild is not configured or the read fails. Otherwise the panel goes to the named channel, or to the current one, with one button that routes to the form. A failed send gives the failure reply |
| MarketplaceCommands.HandleSubmitButton | index.js:438-513 | the form is shown exactly in a configured guild, and its id routes back to the submission handler |
| MarketplaceCommands.ValidImageUrl | index.js:531-542 | the image url is kept exactly when it is non-empty and parses as a URL |
| MarketplaceCommands.Intake | index.js:592-602 | the stored submission holds the new message id, the form's text fields as entered, the submitter's id, username and tag and no extra images. Its image url, when present, is the form's and passes the URL check |
| MarketplaceCommands.HandleModalSubmit | index.js:515-622 | not configured exactly when the read fails or the guild has no row. Otherwise the failure reply, or the review message for the form in the configured submissions channel |
| MarketplaceCommands.IntakeStoresTheForm | index.js:589-608 | the review message stores the form as entered, the submitter, the validated image and no extra images, behind three buttons that route to the submission |
| MarketplaceCommands.HandleApprove | index.js:624-710 | refused without Administrator or Manage Server, then when not configured. Without stored data it is "could not retrieve"; unparsable data or a failed post give the failure reply with nothing posted. A failed edit after the post gives the failure reply with the listing posted and the review left open. Otherwise the listing of the stored submission goes to the marketplace channel and the review is closed |
| MarketplaceCommands.ApprovalPublishesTheSubmission | index.js:657-689 | the listing carries the submission's title, description, price, contact and a mention of the submitter, and the closed review keeps the stored submission |
| MarketplaceCommands.HandleRequestImages | index.js:712-783 | refused without permission. Without stored data nothing changes. A failed DM changes nothing. Otherwise the audit field is added and the submitter's request is registered for this review message |
| MarketplaceCommands.HandleDeclineButton | index.js:907-934 | the reason form is shown exactly to Administrator or Manage Server, and its id routes to the decline-reason handler |
| MarketplaceCommands.HandleDeclineReason | index.js:936-1011 | the newest open submission among the last 50 messages decides the outcome. Without stored data it is "could not retrieve", and unparsable data or a failed edit give the failure reply. Otherwise that message is declined with the reason and its submitter is notified. A failed fetch gives the failure reply. Without a target, or on any failure, the history is unchanged |
| MarketplaceCommands.DeclineReachesNewestOpenReview | index.js:946-957 | with two open reviews, the older one's Decline button routes to the older submission, yet the newer one is the decline target |
| AsWritten.AwardConcatenates | index.js:250-252 | as written `/good` computes the text "[object Promise]1" for every user; awaited it is the stored total plus one |
| AsWritten.BalanceIgnoresTheStore | index.js:262-267 | as written `/balance` shows "[object Promise]" whatever the table holds; awaited, equal replies mean equal balances |
| AsWritten.ResetRepliesAsWritten | index.js:285-294 | as written `/reset` reports "(Previously: [object Promise])" and "undefined user(s)"; awaited it reports the balance and the number of rows |
| AsWritten.ChannelIdsUndefined | index.js:585 | as written the submissions channel id read here, and the marketplace channel id read at index.js:675, are undefined on the pending configuration; awaited they are the configured ids |
| AsWritten.ConfigGuardNeverFires | index.js:402-403 | as written the "not configured" guard never fires; awaited it fires exactly for an unconfigured guild |
| AsWritten.LeaderboardSliceThrows | index.js:304-307 | as written `.slice` on the pending listing throws; awaited it yields the first ten rows |
| AsWritten.ConfigLoopThrows | index.js:850-852 | as written `for … of` over the pending configurations throws; awaited it visits every configuration |

## Left out

- The Discord SDK's own effects are not modelled: embeds' footers, timestamps and thumbnails, ephemeral flags, reply texts other than those carrying data, and the direct messages to submitters. The handlers return what they would send.
- The Express keep-alive server (index.js:1013-1032) and the `ready` handler (index.js:34-40) are I/O only.
- `deployCommands` (index.js:43-154) and the deploy and delete scripts only register commands with Discord.
- Database connection setup and table creation (database.js:1-52) are not modelled. The store starts with empty tables.
- index.js declares `const express` twice (lines 13 and 23). As JavaScript this is a load-time `SyntaxError`. The model treats the file as if it loaded.
- `new URL(…)` is the parameter `isValidUrl`. URL syntax is not modelled.
- Codec.ReadContent: the reader accepts exactly the layout `JSON.stringify(…, null, 2)` prints for a submission. Any other JSON counts as something `JSON.parse` rejects, which is weaker than `JSON.parse`.
- SubmissionJson.EncodeRoundTrip: `\uXXXX` escapes of surrogate pairs are not read. `JSON.stringify` never prints them for well-formed strings.
- Concurrency is not modelled: two handlers interleaving on the ledger or on one review message, and a Decline pressed between the send and the edit of an intake message when the content is still empty.
- The per-registration `setTimeout` is replaced by `Sweep(now)`. What the timer does as written is under Findings.
- The order of rows with equal points is left open, as `ORDER BY points DESC` leaves it.
- The length limits of the form inputs are enforced by Discord, not by the bot. They are not modelled.
- MarketplaceCommands.HandleModalSubmit: one flag stands for a failure of the channel fetch, the send or the edit. The half-built message left behind, with buttons but no stored data, is not modelled.
- MarketplaceCommands.HandleRequestImages: one flag stands for a failure of the user fetch, the DM or the embed edit. A DM sent before a failed edit is not modelled.
- Review.TryConfig: Discord's size limits (1 024 characters for an embed field value, 2 000 for a message) are not computed. A call they make Discord refuse enters as a refusal in `refused`.
- Review.TryConfig: the moderators' notice is not added to the world. Only whether it was refused is modelled.
- The writes at index.js:252, 286, 295 and 382 are not awaited. A failure there is an unhandled rejection after the success reply. The handlers are modelled with the write awaited, reporting the failure instead.
- The decline-reason form does not carry the submission id. The target is the newest open submission in the channel, which may not be the one whose button was pressed. This is modelled as written and shown by `DeclineReachesNewestOpenReview`.

## Findings

| source | as written | input that shows it | evidently intended | confidence | as-written member | corrected member |
|---|---|---|---|---|---|---|
| index.js:250-252 | `getPoints` is called without `await`; the Promise plus 1 is the string "[object Promise]1", which is stored and reported | `/good` on any user, say one with 4 points | the stored value plus one (5) | high, not executed | AsWritten.AwardConcatenates | PointsCommands.HandleGood |
| index.js:402-403 | `getMarketplaceConfig` is called without `await`; a Promise is truthy, so `!config` never holds (also at lines 440, 518 and 636) | `/marketplace-post` by an administrator in a guild with no configuration posts the panel | the "not configured" reply for a guild without a row | high, not executed | AsWritten.ConfigGuardNeverFires | MarketplaceCommands.HandlePost |
| index.js:304-307 | `getAllPoints` is called without `await`; a Promise has no `slice`, so `/leaderboard` always throws | `/leaderboard` with any table | the top ten rows | high, not executed | AsWritten.LeaderboardSliceThrows | PointsCommands.HandleLeaderboard |
| index.js:262-267 | `getPoints` is called without `await`; the template prints the Promise as "[object Promise]" | `/balance` by a user with 4 points | "💰 You have **4** point(s)." | high, not executed | AsWritten.BalanceIgnoresTheStore | PointsCommands.HandleBalance |
| index.js:285-294 | `getPoints` and `getAllPoints` are called without `await`; the reply shows "(Previously: [object Promise])", and `.length` of a Promise is undefined | `/reset` with no user on a table of 3 users | "Cleared data for 3 user(s)." | high, not executed | AsWritten.ResetRepliesAsWritten | PointsCommands.HandleReset |
| index.js:585 | `guildConfig` is the pending Promise, so `submissions_channel_id` is undefined and the channel fetch fails; the same holds for `marketplace_channel_id` at index.js:675 | a member submits the form in a configured guild | the review message is sent to the configured submissions channel | high, not executed | AsWritten.ChannelIdsUndefined | MarketplaceCommands.HandleModalSubmit |
| index.js:850-852 | `getAllMarketplaceConfigs` is called without `await`; `for … of` over a Promise throws before any guild is tried, and the request is kept | a submitter DMs one image while a request is live | the review message is updated in the guild that holds it | high, not executed | AsWritten.ConfigLoopThrows | ImageRequests.ImageRequestRegistry.OnDirectMessage |
| index.js:799-801 | the 24-hour timer deletes the user's entry whatever it holds, including a request renewed later | requests for the same user at 0 and at 3,600,000 ms; the first timer fires at 86,400,000 ms | the renewed request stays until its own expiry at 90,000,000 ms | medium, not executed | ImageRequests.TimerDropsRenewedRequest | ImageRequests.SweepExpired |
