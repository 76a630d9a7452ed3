/** The marketplace handlers of index.js: setup, the submission panel, the
    submission form, and the three review buttons with the decline form. */
module MarketplaceCommands {
  import opened Wrappers
  import opened Router
  import opened Permissions
  import opened Database
  import opened SubmissionJson
  import opened Codec
  import opened Review
  import opened ImageRequests

  /** A channel option: its id and whether it is text based. */
  datatype Channel = Channel(id: string, textBased: bool)

  // ---------------------------------------------------------------- /marketplace-setup

  datatype SetupResult = SetupDenied | NotTextChannels | Configured | SetupFailed

  /** `handleMarketplaceSetup` */
  method HandleSetup(db: Store, member: Member, guildId: string, marketplace: Channel, submissions: Channel, writeFails: bool)
    returns (r: SetupResult)
    requires db.Valid()
    modifies db
    ensures db.Valid() && db.points == old(db.points)
    ensures !Allows(member, SetupMarketplace) ==> r == SetupDenied && db.configs == old(db.configs)
    ensures Allows(member, SetupMarketplace) && !(marketplace.textBased && submissions.textBased) ==>
      r == NotTextChannels && db.configs == old(db.configs)
    ensures Allows(member, SetupMarketplace) && marketplace.textBased && submissions.textBased ==>
      && r == (if writeFails then SetupFailed else Configured)
      && db.configs == (if writeFails then old(db.configs)
                        else old(db.configs)[guildId := MarketplaceConfig(guildId, marketplace.id, submissions.id)])
  {
    if !Has(member, Administrator) {
      return SetupDenied;
    }
    if !marketplace.textBased || !submissions.textBased {
      return NotTextChannels;
    }
    var res := db.SetMarketplaceConfig(guildId, marketplace.id, submissions.id, writeFails);
    r := if res == WriteFailed then SetupFailed else Configured;
  }

  // ---------------------------------------------------------------- /marketplace-post

  datatype PostResult = PostDenied | PostNotConfigured | PostFailed | Posted(channelId: string, components: seq<seq<string>>)

  /** `handleMarketplacePost`: the submission panel goes to the named channel,
      or to the current one. `sendFails` is a failure of the send, which
      reaches the dispatcher's generic error reply. */
  method HandlePost(db: Store, member: Member, guildId: string, target: Option<string>, current: string, readFails: bool,
                    sendFails: bool)
    returns (r: PostResult)
    requires db.Valid()
    ensures !Allows(member, PostMarketplace) ==> r == PostDenied
    ensures Allows(member, PostMarketplace) && (readFails || guildId !in db.configs) ==> r == PostNotConfigured
    ensures Allows(member, PostMarketplace) && !readFails && guildId in db.configs && sendFails ==> r == PostFailed
    ensures Allows(member, PostMarketplace) && !readFails && guildId in db.configs && !sendFails ==>
      r.Posted? && r.channelId == (if target.Some? then target.value else current)
    ensures r.Posted? ==> |r.components| == 1 && |r.components[0]| == 1
                          && Dispatch(ButtonPress(r.components[0][0])) == SubmitButton
  {
    if !Has(member, Administrator) {
      return PostDenied;
    }
    var config := db.GetMarketplaceConfig(guildId, readFails);
    if config.None? {
      return PostNotConfigured;
    }
    var channel := if target.Some? then target.value else current;
    if sendFails {
      return PostFailed;
    }
    r := Posted(channel, [[SubmitButtonId]]);
  }

  // ---------------------------------------------------------------- the panel button

  datatype SubmitButtonResult = FormNotConfigured | ShowForm(formId: string)

  /** `handleMarketplaceSubmitButton`: anybody may open the form of a configured guild. */
  method HandleSubmitButton(db: Store, guildId: string, readFails: bool) returns (r: SubmitButtonResult)
    requires db.Valid()
    ensures r.FormNotConfigured? <==> readFails || guildId !in db.configs
    ensures r.ShowForm? ==> Dispatch(ModalSubmit(r.formId)) == SubmissionForm
  {
    var config := db.GetMarketplaceConfig(guildId, readFails);
    if config.None? {
      return FormNotConfigured;
    }
    r := ShowForm(SubmissionModalId);
  }

  // ---------------------------------------------------------------- the submission form

  /** The five text inputs of the form; an empty optional input reads as "". */
  datatype FormInput = FormInput(title: string, description: string, price: string, contact: string, image: string)

  /** The submitting user. */
  datatype Submitter = Submitter(id: string, username: string, tag: string)

  /** `getTextInputValue('listing_image') || null`, kept only when `new URL` accepts it. */
  function ValidImageUrl(image: string, isValidUrl: string -> bool): (u: Option<string>)
    ensures u.Some? <==> image != "" && isValidUrl(image)
    ensures u.Some? ==> u.value == image
  {
    if image != "" && isValidUrl(image) then Some(image) else None
  }

  /** The record stored with a new submission: the form as entered, the
      submitter, an image url only when it is a valid URL, and no
      `additionalImages` yet. */
  function Intake(messageId: string, form: FormInput, user: Submitter, isValidUrl: string -> bool): (r: Submission)
    ensures r.messageId == messageId && r.additionalImages == None
    ensures r.title == form.title && r.description == form.description && r.price == form.price && r.contact == form.contact
    ensures r.imageUrl.Some? ==> r.imageUrl.value == form.image && isValidUrl(form.image)
    ensures r.userId == user.id && r.username == user.username && r.userTag == user.tag
  {
    Submission(messageId, form.title, form.description, form.price, form.contact,
               ValidImageUrl(form.image, isValidUrl), user.id, user.username, user.tag, None)
  }

  datatype IntakeResult = IntakeNotConfigured | IntakeFailed | SentForReview(channelId: string, message: ChatMessage)

  /** `handleMarketplaceModalSubmit`. The new message's id is an input, and
      `sendFails` is a failure of the channel fetch, the send or the edit. */
  method HandleModalSubmit(db: Store, guildId: string, form: FormInput, user: Submitter, now: nat, newMessageId: string,
                           isValidUrl: string -> bool, readFails: bool, sendFails: bool)
    returns (r: IntakeResult)
    requires db.Valid()
    ensures r.IntakeNotConfigured? <==> readFails || guildId !in db.configs
    ensures !readFails && guildId in db.configs && sendFails ==> r == IntakeFailed
    ensures !readFails && guildId in db.configs && !sendFails ==>
      && r.SentForReview?
      && r.channelId == db.configs[guildId].submissionsChannelId
      && r.message == IntakeMessage(Intake(newMessageId, form, user, isValidUrl), SubmissionId(now, user.id))
  {
    var config := db.GetMarketplaceConfig(guildId, readFails);
    if config.None? {
      return IntakeNotConfigured;
    }
    var submissionId := SubmissionId(now, user.id);
    if sendFails {
      return IntakeFailed;
    }
    var record := Intake(newMessageId, form, user, isValidUrl);
    r := SentForReview(config.value.submissionsChannelId, IntakeMessage(record, submissionId));
  }

  /** What the review message holds: the form as entered, the submitter, the
      validated image url and no extra images, behind three buttons that route
      back to this submission. */
  lemma IntakeStoresTheForm(newMessageId: string, form: FormInput, user: Submitter, isValidUrl: string -> bool, now: nat)
    ensures var m := IntakeMessage(Intake(newMessageId, form, user, isValidUrl), SubmissionId(now, user.id));
            && m.id == newMessageId
            && ReadContent(m.content).Decoded?
            && var rec := ReadContent(m.content).record;
            && rec.messageId == newMessageId && rec.title == form.title && rec.description == form.description
            && rec.price == form.price && rec.contact == form.contact
            && rec.imageUrl == ValidImageUrl(form.image, isValidUrl) && rec.additionalImages == None
            && rec.userId == user.id && rec.username == user.username && rec.userTag == user.tag
            && IsPending(m) && IsDeclineCandidate(m)
            && Dispatch(ButtonPress(m.components[0][0])) == Approve(SubmissionId(now, user.id))
            && Dispatch(ButtonPress(m.components[0][1])) == RequestImages(SubmissionId(now, user.id))
            && Dispatch(ButtonPress(m.components[0][2])) == Decline(SubmissionId(now, user.id))
  {
    var rec := Intake(newMessageId, form, user, isValidUrl);
    var m := IntakeMessage(rec, SubmissionId(now, user.id));
    assert ReadContent(m.content) == Decoded(rec);
  }

  // ---------------------------------------------------------------- Approve

  /** A public listing: the marketplace channel and the embed posted there. */
  datatype Listing = Listing(channelId: string, embed: Embed)

  /** `ApproveFailed` carries the listing when it was already posted before
      the failure; the review message is then left as it was, still open. */
  datatype ApproveResult =
    | ApproveDenied
    | ApproveNotConfigured
    | ApproveNoData
    | ApproveFailed(posted: Option<Listing>)
    | Approved(listing: Listing, closed: ChatMessage, submitterId: string)

  /** `handleMarketplaceApprove` on the review message the button belongs to.
      `postFails` is a failure of the marketplace channel fetch or of the
      post; `editFails` is a failure of the review message's edit, which
      comes after the post. */
  method HandleApprove(db: Store, member: Member, guildId: string, message: ChatMessage, readFails: bool, postFails: bool,
                       editFails: bool)
    returns (r: ApproveResult)
    requires db.Valid()
    ensures !Allows(member, ReviewSubmissions) ==> r == ApproveDenied
    ensures Allows(member, ReviewSubmissions) && (readFails || guildId !in db.configs) ==> r == ApproveNotConfigured
    ensures Allows(member, ReviewSubmissions) && !readFails && guildId in db.configs ==>
      match ReadContent(message.content)
      case NoData => r == ApproveNoData
      case Malformed => r == ApproveFailed(None)
      case Decoded(rec) =>
        var listing := Listing(db.configs[guildId].marketplaceChannelId, ListingEmbed(rec));
        r == (if postFails then ApproveFailed(None)
              else if editFails then ApproveFailed(Some(listing))
              else Approved(listing, ApproveEdit(message), rec.userId))
  {
    if !Has(member, Administrator) && !Has(member, ManageGuild) {
      return ApproveDenied;
    }
    var config := db.GetMarketplaceConfig(guildId, readFails);
    if config.None? {
      return ApproveNotConfigured;
    }
    match ReadContent(message.content)
    case NoData =>
      r := ApproveNoData;
    case Malformed =>
      r := ApproveFailed(None);
    case Decoded(rec) =>
      if postFails {
        return ApproveFailed(None);
      }
      var listing := Listing(config.value.marketplaceChannelId, ListingEmbed(rec));
      if editFails {
        return ApproveFailed(Some(listing));
      }
      r := Approved(listing, ApproveEdit(message), rec.userId);
  }

  /** An approval publishes what the submitter entered and closes the review for good. */
  lemma ApprovalPublishesTheSubmission(message: ChatMessage, rec: Submission)
    requires ReadContent(message.content) == Decoded(rec)
    ensures ListingEmbed(rec).title == Some(rec.title) && ListingEmbed(rec).description == Some(rec.description)
    ensures |ListingEmbed(rec).fields| == 3 && ListingEmbed(rec).fields[0].value == rec.price
    ensures ListingEmbed(rec).fields[1].value == rec.contact && ListingEmbed(rec).fields[2].value == Mention(rec.userId)
    ensures !IsPending(ApproveEdit(message)) && !IsDeclineCandidate(ApproveEdit(message))
    ensures ReadContent(ApproveEdit(message).content) == Decoded(rec)
  {
  }

  // ---------------------------------------------------------------- Request Images

  datatype RequestImagesResult =
    | RequestDenied
    | RequestNoData
    | RequestFailed
    | DmFailed
    | Requested(updated: ChatMessage, submitterId: string)

  /** `handleMarketplaceRequestImages`. `dmFails` is a failure in the inner
      `try` before the listener is set: the user fetch, the DM or the edit. */
  method HandleRequestImages(registry: ImageRequestRegistry, member: Member, moderatorId: string, message: ChatMessage,
                             now: nat, dmFails: bool)
    returns (r: RequestImagesResult)
    modifies registry
    ensures !Allows(member, ReviewSubmissions) ==> r == RequestDenied && registry.listeners == old(registry.listeners)
    ensures Allows(member, ReviewSubmissions) && !ReadContent(message.content).Decoded? ==>
      && r == (if ReadContent(message.content).NoData? then RequestNoData else RequestFailed)
      && registry.listeners == old(registry.listeners)
    ensures Allows(member, ReviewSubmissions) && ReadContent(message.content).Decoded? && dmFails ==>
      r == DmFailed && registry.listeners == old(registry.listeners)
    ensures Allows(member, ReviewSubmissions) && ReadContent(message.content).Decoded? && !dmFails ==>
      var rec := ReadContent(message.content).record;
      && r == Requested(ImageRequestEdit(message, moderatorId, now), rec.userId)
      && registry.listeners == Register(old(registry.listeners), rec.userId, message.id, rec.title, now)
  {
    if !Has(member, Administrator) && !Has(member, ManageGuild) {
      return RequestDenied;
    }
    match ReadContent(message.content)
    case NoData =>
      r := RequestNoData;
    case Malformed =>
      r := RequestFailed;
    case Decoded(rec) =>
      if dmFails {
        r := DmFailed;
      } else {
        var updated := ImageRequestEdit(message, moderatorId, now);
        registry.SetupImageListener(rec.userId, message.id, rec.title, now);
        r := Requested(updated, rec.userId);
      }
  }

  // ---------------------------------------------------------------- Decline

  datatype DeclineButtonResult = DeclineDenied | ShowReasonForm(formId: string)

  /** `handleMarketplaceDecline`: the permission gate, then the reason form.
      The form's id does not carry the submission id. */
  function HandleDeclineButton(member: Member): (r: DeclineButtonResult)
    ensures r.ShowReasonForm? <==> Allows(member, ReviewSubmissions)
    ensures r.ShowReasonForm? ==> Dispatch(ModalSubmit(r.formId)) == DeclineReasonForm
  {
    if !Has(member, Administrator) && !Has(member, ManageGuild) then DeclineDenied
    else ShowReasonForm(DeclineReasonModalId)
  }

  datatype DeclineResult =
    | TargetNotFound
    | DeclineNoData
    | DeclineFailed
    | Declined(index: nat, submitterId: string)

  /** `handleDeclineReasonSubmit` on the channel history, newest first: the
      newest open submission among the last 50 messages is declined. No
      permission is checked here. `fetchFails` is a failure of the history
      fetch, `editFails` one of the edit; both end in "Failed to decline". */
  method HandleDeclineReason(history: seq<ChatMessage>, reason: string, fetchFails: bool, editFails: bool)
    returns (r: DeclineResult, h: seq<ChatMessage>)
    ensures fetchFails ==> r == DeclineFailed && h == history
    ensures r.TargetNotFound? <==>
      !fetchFails && forall j | 0 <= j < |history| && j < HistoryFetchLimit :: !IsDeclineCandidate(history[j])
    ensures !r.Declined? ==> h == history
    ensures r.Declined? ==>
      && r.index < |history| && r.index < HistoryFetchLimit
      && IsDeclineCandidate(history[r.index])
      && (forall j | 0 <= j < r.index :: !IsDeclineCandidate(history[j]))
      && ReadContent(history[r.index].content).Decoded?
      && r.submitterId == ReadContent(history[r.index].content).record.userId
      && h == history[r.index := DeclineEdit(history[r.index], reason)]
    ensures r.DeclineNoData? || (r.DeclineFailed? && !fetchFails) ==>
      exists k | 0 <= k < |history| :: IsDeclineCandidate(history[k])
    ensures forall k | IsFirstCandidate(history, k) ::
      !fetchFails ==>
        match ReadContent(history[k].content)
        case NoData => r == DeclineNoData
        case Malformed => r == DeclineFailed
        case Decoded(rec) =>
          && r == (if editFails then DeclineFailed else Declined(k, rec.userId))
          && h == (if editFails then history else history[k := DeclineEdit(history[k], reason)])
  {
    h := history;
    if fetchFails {
      return DeclineFailed, h;
    }
    var k := FindDeclineTarget(history);
    if k.None? {
      return TargetNotFound, h;
    }
    forall j | IsFirstCandidate(history, j)
      ensures j == k.value
    {
      FirstCandidateUnique(history, j, k.value);
    }
    var target := history[k.value];
    match ReadContent(target.content)
    case NoData =>
      r := DeclineNoData;
    case Malformed =>
      r := DeclineFailed;
    case Decoded(rec) =>
      if editFails {
        r := DeclineFailed;
      } else {
        h := history[k.value := DeclineEdit(target, reason)];
        r := Declined(k.value, rec.userId);
      }
  }

  /** The decline form acts on the newest open submission, not necessarily the
      one whose Decline button was pressed: of two open reviews, the older
      one's button declines the newer one. */
  lemma DeclineReachesNewestOpenReview(newer: Submission, older: Submission)
    ensures var history := [IntakeMessage(newer, "2_u"), IntakeMessage(older, "1_u")];
            && Dispatch(ButtonPress(history[1].components[0][2])) == Decline("1_u")
            && IsDeclineCandidate(history[0])
  {
  }
}
