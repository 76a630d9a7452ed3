/** The review message in the submissions channel and everything the bot
    does to it: the intake message, approve, request images, decline, the
    search for a decline target, and the update when the submitter's images
    arrive. Messages are values; an edit yields the new message. */
module Review {
  import opened Wrappers
  import opened Decimal
  import opened Router
  import opened SubmissionJson
  import opened Codec
  import opened Database

  const NewSubmissionTitle := "📝 New Marketplace Submission"
  const ApprovedTitle := "✅ Approved - Marketplace Submission"
  const DeclinedTitle := "❌ Declined - Marketplace Submission"

  /** `channel.messages.fetch({ limit: 50 })` */
  const HistoryFetchLimit := 50

  datatype EmbedField = EmbedField(name: string, value: string, inline: bool)

  datatype Embed = Embed(
    color: Option<string>,
    title: Option<string>,
    description: Option<string>,
    image: Option<string>,
    fields: seq<EmbedField>)

  /** A chat message: its id, its text content, its embeds and its rows of buttons (custom ids). */
  datatype ChatMessage = ChatMessage(id: string, content: string, embeds: seq<Embed>, components: seq<seq<string>>)

  const EmptyEmbed := Embed(None, None, None, None, [])

  /** How `${user}` prints a user. */
  function Mention(userId: string): string {
    "<@" + userId + ">"
  }

  /** `<t:${Math.floor(Date.now() / 1000)}:f>` */
  function DiscordTimestamp(now: nat): string {
    "<t:" + DecimalString(now / 1000) + ":f>"
  }

  /** `setImage(url)` is applied only to a truthy url. */
  function TruthyUrl(url: Option<string>): Option<string> {
    if url.Some? && url.value != "" then url else None
  }

  /** `EmbedBuilder.from(message.embeds[0])`: the first embed, or an empty one. */
  function FirstEmbed(m: ChatMessage): Embed {
    if |m.embeds| > 0 then m.embeds[0] else EmptyEmbed
  }

  /** A review is open while its buttons are on it. */
  predicate IsPending(m: ChatMessage) {
    |m.components| > 0
  }

  /** What the decline form's handler looks for in the channel history. */
  predicate IsDeclineCandidate(m: ChatMessage) {
    |m.embeds| > 0 && m.embeds[0].title == Some(NewSubmissionTitle) && |m.components| > 0
  }

  // ---------------------------------------------------------------- intake

  /** The moderators' view of a submission: the new-submission title, the
      image only when the url is truthy, and the five fields. */
  function SubmissionEmbed(r: Submission): (e: Embed)
    ensures e.title == Some(NewSubmissionTitle) && e.image == TruthyUrl(r.imageUrl)
    ensures |e.fields| == 5 && e.fields[0].value == r.title && e.fields[1].value == r.description
    ensures e.fields[2].value == r.price && e.fields[3].value == r.contact && e.fields[4].value == Mention(r.userId)
  {
    Embed(Some("#FFA500"), Some(NewSubmissionTitle), None, TruthyUrl(r.imageUrl),
      [ EmbedField("📌 Title", r.title, false),
        EmbedField("📄 Description", r.description, false),
        EmbedField("💰 Price", r.price, true),
        EmbedField("📞 Contact", r.contact, true),
        EmbedField("👤 Submitted By", Mention(r.userId), true) ])
  }

  /** One row of three buttons, each routing to its review handler with this submission's id. */
  function ReviewButtons(submissionId: string): (b: seq<seq<string>>)
    ensures |b| == 1 && |b[0]| == 3
    ensures Dispatch(ButtonPress(b[0][0])) == Approve(submissionId)
    ensures Dispatch(ButtonPress(b[0][1])) == RequestImages(submissionId)
    ensures Dispatch(ButtonPress(b[0][2])) == Decline(submissionId)
  {
    ReviewButtonsRoute(submissionId);
    [[ApproveButtonId(submissionId), RequestImagesButtonId(submissionId), DeclineButtonId(submissionId)]]
  }

  /** The review message once the bot has stored the submission in it. */
  function IntakeMessage(r: Submission, submissionId: string): (m: ChatMessage)
    ensures m.id == r.messageId
    ensures ReadContent(m.content) == Decoded(r)
    ensures IsPending(m) && IsDeclineCandidate(m)
    ensures |m.components| == 1 && |m.components[0]| == 3
    ensures Dispatch(ButtonPress(m.components[0][0])) == Approve(submissionId)
    ensures Dispatch(ButtonPress(m.components[0][1])) == RequestImages(submissionId)
    ensures Dispatch(ButtonPress(m.components[0][2])) == Decline(submissionId)
  {
    ContentRoundTrip(r);
    ChatMessage(r.messageId, Content(r), [SubmissionEmbed(r)], ReviewButtons(submissionId))
  }

  // ---------------------------------------------------------------- approve

  /** The public listing posted to the marketplace channel. */
  function ListingEmbed(r: Submission): (e: Embed)
    ensures e.title == Some(r.title) && e.description == Some(r.description)
    ensures e.image == TruthyUrl(r.imageUrl)
    ensures e.fields == [EmbedField("💰 Price", r.price, true), EmbedField("📞 Contact", r.contact, true),
                         EmbedField("👤 Seller", Mention(r.userId), true)]
  {
    Embed(Some("#233dff"), Some(r.title), Some(r.description), TruthyUrl(r.imageUrl),
      [ EmbedField("💰 Price", r.price, true),
        EmbedField("📞 Contact", r.contact, true),
        EmbedField("👤 Seller", Mention(r.userId), true) ])
  }

  /** The review message after approval: buttons gone, approved title. */
  function ApproveEdit(m: ChatMessage): (r: ChatMessage)
    ensures !IsPending(r) && !IsDeclineCandidate(r)
    ensures r.id == m.id && ReadContent(r.content) == ReadContent(m.content)
    ensures |r.embeds| == 1 && r.embeds[0].title == Some(ApprovedTitle)
    ensures r.embeds[0].fields == FirstEmbed(m).fields && r.embeds[0].image == FirstEmbed(m).image
  {
    m.(embeds := [FirstEmbed(m).(color := Some("#00FF00"), title := Some(ApprovedTitle))], components := [])
  }

  // ---------------------------------------------------------------- decline

  function DeclineReasonField(reason: string): EmbedField {
    EmbedField("📝 Decline Reason", reason, false)
  }

  /** The review message after a decline: buttons gone, declined title, the reason appended. */
  function DeclineEdit(m: ChatMessage, reason: string): (r: ChatMessage)
    ensures !IsPending(r) && !IsDeclineCandidate(r)
    ensures r.id == m.id && ReadContent(r.content) == ReadContent(m.content)
    ensures |r.embeds| == 1 && r.embeds[0].title == Some(DeclinedTitle)
    ensures r.embeds[0].fields == FirstEmbed(m).fields + [DeclineReasonField(reason)]
  {
    var e := FirstEmbed(m);
    m.(embeds := [e.(color := Some("#FF0000"), title := Some(DeclinedTitle), fields := e.fields + [DeclineReasonField(reason)])],
       components := [])
  }

  /** Message k is the first open submission among the (at most 50) fetched messages. */
  predicate IsFirstCandidate(history: seq<ChatMessage>, k: int) {
    && 0 <= k < |history| && k < HistoryFetchLimit && IsDeclineCandidate(history[k])
    && forall j | 0 <= j < k :: !IsDeclineCandidate(history[j])
  }

  /** There is at most one first candidate. */
  lemma FirstCandidateUnique(history: seq<ChatMessage>, a: int, b: int)
    requires IsFirstCandidate(history, a) && IsFirstCandidate(history, b)
    ensures a == b
  {
  }

  /** The first of the (at most 50) fetched messages, newest first, that looks
      like an open submission. It need not be the message whose Decline
      button was pressed. */
  method FindDeclineTarget(history: seq<ChatMessage>) returns (k: Option<nat>)
    ensures k.Some? ==> k.value < |history| && k.value < HistoryFetchLimit && IsDeclineCandidate(history[k.value])
    ensures k.Some? ==> forall j | 0 <= j < k.value :: !IsDeclineCandidate(history[j])
    ensures k.None? ==> forall j | 0 <= j < |history| && j < HistoryFetchLimit :: !IsDeclineCandidate(history[j])
  {
    var fetched := if |history| <= HistoryFetchLimit then history else history[..HistoryFetchLimit];
    k := None;
    var i := 0;
    while i < |fetched|
      invariant 0 <= i <= |fetched|
      invariant forall j | 0 <= j < i :: !IsDeclineCandidate(fetched[j])
    {
      if IsDeclineCandidate(fetched[i]) {
        k := Some(i);
        break;
      }
      i := i + 1;
    }
  }

  // ---------------------------------------------------------------- request images

  function ImageRequestField(moderatorId: string, now: nat): EmbedField {
    EmbedField("📸 Image Request", "Sent by " + Mention(moderatorId) + " at " + DiscordTimestamp(now), false)
  }

  /** The review message after a moderator requested images: an audit field, nothing else. */
  function ImageRequestEdit(m: ChatMessage, moderatorId: string, now: nat): (r: ChatMessage)
    ensures r.id == m.id && r.content == m.content && r.components == m.components
    ensures IsPending(r) == IsPending(m) && IsDeclineCandidate(r) == IsDeclineCandidate(m)
    ensures |r.embeds| == 1 && r.embeds[0].fields == FirstEmbed(m).fields + [ImageRequestField(moderatorId, now)]
  {
    var e := FirstEmbed(m);
    m.(embeds := [e.(fields := e.fields + [ImageRequestField(moderatorId, now)])])
  }

  // ---------------------------------------------------------------- images received

  /** `[Image 1](u1) • [Image 2](u2) • ...`, numbering from `first`. */
  function ImageLinks(urls: seq<string>, first: nat): string
    decreases |urls|
  {
    if urls == [] then ""
    else
      var link := "[Image " + DecimalString(first) + "](" + urls[0] + ")";
      if |urls| == 1 then link else link + " • " + ImageLinks(urls[1..], first + 1)
  }

  function ImagesReceivedField(urls: seq<string>, now: nat): EmbedField {
    EmbedField("📸 Images Received",
      "User submitted " + DecimalString(|urls|) + " image(s) at " + DiscordTimestamp(now) + "\n" + ImageLinks(urls, 1),
      false)
  }

  /** The stored record once images are in: the first url is the main image, all urls are kept. */
  function WithImages(r: Submission, urls: seq<string>): Submission
    requires |urls| > 0
  {
    r.(imageUrl := Some(urls[0]), additionalImages := Some(urls))
  }

  /** The two edits of a found review message: the embed gains the first image
      and an audit field; then, when the content holds a submission, the
      content is rewritten with the images merged in. The flag reports that
      `JSON.parse` threw after the embed was already edited. */
  function ReceiveImages(m: ChatMessage, urls: seq<string>, now: nat): (res: (ChatMessage, bool))
    requires |urls| > 0
    ensures res.0.id == m.id && res.0.components == m.components
    ensures res.1 <==> ReadContent(m.content).Malformed?
    ensures |res.0.embeds| == 1 && res.0.embeds[0].image == Some(urls[0])
    ensures res.0.embeds[0].fields == FirstEmbed(m).fields + [ImagesReceivedField(urls, now)]
    ensures ReadContent(m.content).Decoded? ==> ReadContent(res.0.content) == Decoded(WithImages(ReadContent(m.content).record, urls))
    ensures !ReadContent(m.content).Decoded? ==> res.0.content == m.content
  {
    var e := FirstEmbed(m);
    var edited := m.(embeds := [e.(image := Some(urls[0]), fields := e.fields + [ImagesReceivedField(urls, now)])]);
    match ReadContent(m.content)
    case NoData => (edited, false)
    case Malformed => (edited, true)
    case Decoded(r) =>
      ContentRoundTrip(WithImages(r, urls));
      (edited.(content := Content(WithImages(r, urls))), false)
  }

  /** Receiving images changes exactly the two image fields of the stored
      submission; every other field reads back as before. */
  lemma ImagesKeepOtherFields(m: ChatMessage, urls: seq<string>, now: nat)
    requires |urls| > 0 && ReadContent(m.content).Decoded?
    ensures ReadContent(ReceiveImages(m, urls, now).0.content).Decoded?
    ensures var before := ReadContent(m.content).record;
            var after := ReadContent(ReceiveImages(m, urls, now).0.content).record;
            && after.imageUrl == Some(urls[0]) && after.additionalImages == Some(urls)
            && after.messageId == before.messageId && after.title == before.title
            && after.description == before.description && after.price == before.price
            && after.contact == before.contact && after.userId == before.userId
            && after.username == before.username && after.userTag == before.userTag
  {
  }

  /** Once a review has lost its buttons no operation gives them back, and it is never again a decline target. */
  lemma ClosedReviewsStayClosed(m: ChatMessage, moderatorId: string, reason: string, urls: seq<string>, now: nat)
    requires !IsPending(m) && |urls| > 0
    ensures !IsPending(ImageRequestEdit(m, moderatorId, now)) && !IsDeclineCandidate(ImageRequestEdit(m, moderatorId, now))
    ensures !IsPending(ReceiveImages(m, urls, now).0) && !IsDeclineCandidate(ReceiveImages(m, urls, now).0)
    ensures !IsPending(ApproveEdit(m)) && !IsPending(DeclineEdit(m, reason))
  {
  }

  // ---------------------------------------------------------------- locating the submission by DM

  /** The guilds the bot can reach: guild id to channel id to that channel's messages. */
  type World = map<string, map<string, seq<ChatMessage>>>

  /** `channel.messages.fetch(id)` */
  function FindMessage(msgs: seq<ChatMessage>, id: string): (r: Option<nat>)
    ensures r.Some? ==> r.value < |msgs| && msgs[r.value].id == id
    ensures r.Some? ==> forall k | 0 <= k < r.value :: msgs[k].id != id
    ensures r.None? ==> forall k | 0 <= k < |msgs| :: msgs[k].id != id
  {
    if msgs == [] then None
    else if msgs[0].id == id then Some(0)
    else
      match FindMessage(msgs[1..], id)
      case None => None
      case Some(k) => Some(k + 1)
  }

  /** `guild.channels.fetch(channelId)`, then `messages.fetch(msgId)`. */
  function FindInGuild(guild: map<string, seq<ChatMessage>>, channelId: string, msgId: string): (r: Option<nat>)
    ensures r.Some? ==> channelId in guild && r.value < |guild[channelId]| && guild[channelId][r.value].id == msgId
    ensures r.Some? ==> forall k | 0 <= k < r.value :: guild[channelId][k].id != msgId
    ensures r.None? ==> channelId !in guild || forall k | 0 <= k < |guild[channelId]| :: guild[channelId][k].id != msgId
  {
    if channelId in guild then FindMessage(guild[channelId], msgId) else None
  }

  /** Fetching the guild, its submissions channel and the review message; None when any fetch fails. */
  function Locate(world: World, cfg: MarketplaceConfig, msgId: string): (r: Option<nat>)
    ensures r.Some? ==> cfg.guildId in world && cfg.submissionsChannelId in world[cfg.guildId]
    ensures r.Some? ==> r.value < |world[cfg.guildId][cfg.submissionsChannelId]|
    ensures r.Some? ==> world[cfg.guildId][cfg.submissionsChannelId][r.value].id == msgId
    ensures r.None? ==>
      || cfg.guildId !in world
      || cfg.submissionsChannelId !in world[cfg.guildId]
      || forall k | 0 <= k < |world[cfg.guildId][cfg.submissionsChannelId]| ::
           world[cfg.guildId][cfg.submissionsChannelId][k].id != msgId
  {
    if cfg.guildId in world then FindInGuild(world[cfg.guildId], cfg.submissionsChannelId, msgId) else None
  }

  /** A Discord call of one guild's attempt that is refused and throws: the
      embed edit (`addFields` rejects a field value over 1 024 characters, or
      the edit itself fails), the content edit (for instance a message over
      2 000 characters), or the notice to the moderators. */
  datatype Refusal = EmbedEditRefused | ContentEditRefused | NoticeRefused

  /** The refusal met in each guild, by guild id; a guild not listed meets none. */
  type Refusals = map<string, Refusal>

  function RefusalIn(refused: Refusals, guildId: string): Option<Refusal> {
    if guildId in refused then Some(refused[guildId]) else None
  }

  /** The `try` body reaches `break`: `JSON.parse` accepts the content and no
      call that is made is refused (the content edit is made only when the
      content holds a submission). */
  predicate AttemptSucceeds(m: ChatMessage, refusal: Option<Refusal>) {
    && !ReadContent(m.content).Malformed?
    && refusal != Some(EmbedEditRefused)
    && refusal != Some(NoticeRefused)
    && !(refusal == Some(ContentEditRefused) && ReadContent(m.content).Decoded?)
  }

  /** The attempt on a located review message: the message it leaves behind,
      and whether the loop's `break` is reached. Each edit that went through
      stays, even when a later step throws. */
  function AttemptOn(m: ChatMessage, urls: seq<string>, now: nat, refusal: Option<Refusal>): (res: (ChatMessage, bool))
    requires |urls| > 0
    ensures res.1 <==> AttemptSucceeds(m, refusal)
    ensures res.0.id == m.id && res.0.components == m.components
    ensures refusal == Some(EmbedEditRefused) ==> res.0 == m
    ensures refusal != Some(EmbedEditRefused) ==> res.0.embeds == ReceiveImages(m, urls, now).0.embeds
    ensures refusal == Some(ContentEditRefused) ==> res.0.content == m.content
    ensures refusal != Some(EmbedEditRefused) && refusal != Some(ContentEditRefused) ==> res.0 == ReceiveImages(m, urls, now).0
  {
    if refusal == Some(EmbedEditRefused) then (m, false)
    else
      var after := ReceiveImages(m, urls, now).0;
      match ReadContent(m.content)
      case Malformed => (after, false)
      case NoData => (after, refusal != Some(NoticeRefused))
      case Decoded(_) =>
        if refusal == Some(ContentEditRefused) then (after.(content := m.content), false)
        else (after, refusal != Some(NoticeRefused))
  }

  /** The attempt for one configuration reaches `break`: the message is found and nothing throws. */
  predicate UpdatesIn(world: World, cfg: MarketplaceConfig, msgId: string, refused: Refusals) {
    match Locate(world, cfg, msgId)
    case None => false
    case Some(k) => AttemptSucceeds(world[cfg.guildId][cfg.submissionsChannelId][k], RefusalIn(refused, cfg.guildId))
  }

  /** The guild after the attempt for one configuration: what `AttemptOn`
      leaves of the located review message, if there is one. */
  function GuildAfter(guild: map<string, seq<ChatMessage>>, channelId: string, msgId: string, urls: seq<string>, now: nat,
                      refusal: Option<Refusal>)
    : map<string, seq<ChatMessage>>
    requires |urls| > 0
  {
    match FindInGuild(guild, channelId, msgId)
    case None => guild
    case Some(k) =>
      var msgs := guild[channelId];
      guild[channelId := msgs[k := AttemptOn(msgs[k], urls, now, refusal).0]]
  }

  predicate DistinctGuilds(configs: seq<MarketplaceConfig>) {
    forall i, j | 0 <= i < j < |configs| :: configs[i].guildId != configs[j].guildId
  }

  /** None of the configurations before `n` led to a successful update. */
  predicate NoneUpdated(configs: seq<MarketplaceConfig>, world: World, msgId: string, refused: Refusals, n: nat)
    requires n <= |configs|
  {
    forall j | 0 <= j < n :: !UpdatesIn(world, configs[j], msgId, refused)
  }

  /** The world once the configurations before `n` have been tried: each of
      their guilds has seen its attempt, every other guild is untouched. */
  ghost predicate AppliedThrough(configs: seq<MarketplaceConfig>, world: World, msgId: string, urls: seq<string>, now: nat,
                                 refused: Refusals, n: nat, w: World)
    requires |urls| > 0 && n <= |configs|
  {
    && w.Keys == world.Keys
    && (forall j | 0 <= j < n && configs[j].guildId in world ::
          w[configs[j].guildId] == GuildAfter(world[configs[j].guildId], configs[j].submissionsChannelId, msgId, urls, now,
                     RefusalIn(refused, configs[j].guildId)))
    && (forall g | g in world && (forall j | 0 <= j < n :: configs[j].guildId != g) :: w[g] == world[g])
  }

  /** The contract of the guild loop of the DM handler: `hit` is the first
      configuration whose attempt succeeds; every guild tried (each one before
      the hit and the hit itself, or all of them when there was none) keeps
      the edits its attempt made to its review message, if it has one, even
      where a later `JSON.parse` failure or refused call moved the loop on;
      no other guild changed. */
  ghost predicate DeliveryOutcome(configs: seq<MarketplaceConfig>, world: World, msgId: string, urls: seq<string>, now: nat,
                                  refused: Refusals, hit: Option<nat>, w: World)
    requires |urls| > 0
  {
    && (hit.Some? ==> hit.value < |configs| && UpdatesIn(world, configs[hit.value], msgId, refused))
    && NoneUpdated(configs, world, msgId, refused, if hit.Some? then hit.value else |configs|)
    && AppliedThrough(configs, world, msgId, urls, now, refused, if hit.Some? then hit.value + 1 else |configs|, w)
  }

  /** One attempt: the configuration's guild becomes `GuildAfter`. */
  function Attempted(w: World, cfg: MarketplaceConfig, msgId: string, urls: seq<string>, now: nat, refused: Refusals): World
    requires |urls| > 0
  {
    if cfg.guildId in w
    then w[cfg.guildId := GuildAfter(w[cfg.guildId], cfg.submissionsChannelId, msgId, urls, now, RefusalIn(refused, cfg.guildId))]
    else w
  }

  /** The guild of the next configuration has not been touched yet. */
  lemma NextGuildUntouched(configs: seq<MarketplaceConfig>, world: World, msgId: string, urls: seq<string>, now: nat,
                           refused: Refusals, n: nat, w: World)
    requires |urls| > 0 && n < |configs| && DistinctGuilds(configs)
    requires AppliedThrough(configs, world, msgId, urls, now, refused, n, w)
    ensures configs[n].guildId in w <==> configs[n].guildId in world
    ensures configs[n].guildId in world ==> w[configs[n].guildId] == world[configs[n].guildId]
    ensures Locate(w, configs[n], msgId) == Locate(world, configs[n], msgId)
    ensures UpdatesIn(w, configs[n], msgId, refused) == UpdatesIn(world, configs[n], msgId, refused)
  {
    var g := configs[n].guildId;
    if g in world {
      assert forall j | 0 <= j < n :: configs[j].guildId != g;
    }
  }

  /** Guilds tried before `n` keep their attempt when configuration `n` is tried. */
  lemma TriedGuildsStay(configs: seq<MarketplaceConfig>, world: World, msgId: string, urls: seq<string>, now: nat,
                        refused: Refusals, n: nat, w: World)
    requires |urls| > 0 && n < |configs| && DistinctGuilds(configs)
    requires AppliedThrough(configs, world, msgId, urls, now, refused, n, w)
    ensures forall j | 0 <= j < n + 1 && configs[j].guildId in world ::
      Attempted(w, configs[n], msgId, urls, now, refused)[configs[j].guildId]
        == GuildAfter(world[configs[j].guildId], configs[j].submissionsChannelId, msgId, urls, now,
                      RefusalIn(refused, configs[j].guildId))
  {
    NextGuildUntouched(configs, world, msgId, urls, now, refused, n, w);
    var cfg := configs[n];
    var w' := Attempted(w, cfg, msgId, urls, now, refused);
    forall j | 0 <= j < n + 1 && configs[j].guildId in world
      ensures w'[configs[j].guildId] == GuildAfter(world[configs[j].guildId], configs[j].submissionsChannelId, msgId, urls, now,
                      RefusalIn(refused, configs[j].guildId))
    {
      if j < n {
        assert configs[j].guildId != cfg.guildId;
        assert w'[configs[j].guildId] == w[configs[j].guildId];
      } else {
        assert w'[cfg.guildId] == GuildAfter(w[cfg.guildId], cfg.submissionsChannelId, msgId, urls, now, RefusalIn(refused, cfg.guildId));
      }
    }
  }

  /** Guilds not yet tried after configuration `n` are still as they were. */
  lemma UntriedGuildsStay(configs: seq<MarketplaceConfig>, world: World, msgId: string, urls: seq<string>, now: nat,
                          refused: Refusals, n: nat, w: World)
    requires |urls| > 0 && n < |configs|
    requires AppliedThrough(configs, world, msgId, urls, now, refused, n, w)
    ensures forall g | g in world && (forall j | 0 <= j < n + 1 :: configs[j].guildId != g) ::
      Attempted(w, configs[n], msgId, urls, now, refused)[g] == world[g]
  {
    var w' := Attempted(w, configs[n], msgId, urls, now, refused);
    forall g | g in world && (forall j | 0 <= j < n + 1 :: configs[j].guildId != g)
      ensures w'[g] == world[g]
    {
      assert configs[n].guildId != g;
      assert forall j | 0 <= j < n :: configs[j].guildId != g;
      assert w'[g] == w[g];
    }
  }

  lemma AttemptStep(configs: seq<MarketplaceConfig>, world: World, msgId: string, urls: seq<string>, now: nat,
                    refused: Refusals, n: nat, w: World)
    requires |urls| > 0 && n < |configs| && DistinctGuilds(configs)
    requires AppliedThrough(configs, world, msgId, urls, now, refused, n, w)
    ensures AppliedThrough(configs, world, msgId, urls, now, refused, n + 1, Attempted(w, configs[n], msgId, urls, now, refused))
  {
    TriedGuildsStay(configs, world, msgId, urls, now, refused, n, w);
    UntriedGuildsStay(configs, world, msgId, urls, now, refused, n, w);
  }

  /** The loop stops at configuration `i`: the hit it reports is the first. */
  lemma DeliveryHit(configs: seq<MarketplaceConfig>, world: World, msgId: string, urls: seq<string>, now: nat,
                    refused: Refusals, i: nat, w: World)
    requires |urls| > 0 && i < |configs|
    requires NoneUpdated(configs, world, msgId, refused, i) && UpdatesIn(world, configs[i], msgId, refused)
    requires AppliedThrough(configs, world, msgId, urls, now, refused, i + 1, w)
    ensures DeliveryOutcome(configs, world, msgId, urls, now, refused, Some(i), w)
  {
  }

  /** Configuration `i` did not succeed either. */
  lemma NoneUpdatedStep(configs: seq<MarketplaceConfig>, world: World, msgId: string, refused: Refusals, i: nat)
    requires i < |configs|
    requires NoneUpdated(configs, world, msgId, refused, i) && !UpdatesIn(world, configs[i], msgId, refused)
    ensures NoneUpdated(configs, world, msgId, refused, i + 1)
  {
  }

  /** The loop ran through every configuration without a hit. */
  lemma DeliveryMiss(configs: seq<MarketplaceConfig>, world: World, msgId: string, urls: seq<string>, now: nat,
                     refused: Refusals, w: World)
    requires |urls| > 0
    requires NoneUpdated(configs, world, msgId, refused, |configs|)
    requires AppliedThrough(configs, world, msgId, urls, now, refused, |configs|, w)
    ensures DeliveryOutcome(configs, world, msgId, urls, now, refused, None, w)
  {
  }

  /** The body of the `try` for one configuration: fetch, edit the embed,
      rewrite the content, notify the moderators; `updated` is false when a
      fetch failed, `JSON.parse` threw or a call was refused. */
  method TryConfig(w: World, cfg: MarketplaceConfig, msgId: string, urls: seq<string>, now: nat, refused: Refusals)
    returns (updated: bool, w': World)
    requires |urls| > 0
    ensures updated == UpdatesIn(w, cfg, msgId, refused)
    ensures w' == Attempted(w, cfg, msgId, urls, now, refused)
  {
    w' := w;
    updated := false;
    var loc := Locate(w, cfg, msgId);
    if loc.Some? {
      var msgs := w[cfg.guildId][cfg.submissionsChannelId];
      var res := AttemptOn(msgs[loc.value], urls, now, RefusalIn(refused, cfg.guildId));
      w' := w[cfg.guildId := w[cfg.guildId][cfg.submissionsChannelId := msgs[loc.value := res.0]]];
      updated := res.1;
    }
  }

  /** The `for (const config of allConfigs)` loop: try each configured guild
      in turn and stop at the first one where the update goes through. */
  method DeliverImages(configs: seq<MarketplaceConfig>, world: World, msgId: string, urls: seq<string>, now: nat,
                       refused: Refusals)
    returns (hit: Option<nat>, w: World)
    requires |urls| > 0
    requires DistinctGuilds(configs)
    ensures DeliveryOutcome(configs, world, msgId, urls, now, refused, hit, w)
  {
    w := world;
    hit := None;
    var i: nat := 0;
    while i < |configs|
      invariant i <= |configs| && hit.None?
      invariant NoneUpdated(configs, world, msgId, refused, i)
      invariant AppliedThrough(configs, world, msgId, urls, now, refused, i, w)
    {
      NextGuildUntouched(configs, world, msgId, urls, now, refused, i, w);
      AttemptStep(configs, world, msgId, urls, now, refused, i, w);
      var updated;
      updated, w := TryConfig(w, configs[i], msgId, urls, now, refused);
      if updated {
        DeliveryHit(configs, world, msgId, urls, now, refused, i, w);
        hit := Some(i);
        return;
      }
      NoneUpdatedStep(configs, world, msgId, refused, i);
      i := i + 1;
    }
    DeliveryMiss(configs, world, msgId, urls, now, refused, w);
  }
}
