/** The pending image requests: a moderator asks a submitter for images, the
    bot remembers the request for 24 hours, and the submitter's next direct
    message with image attachments is merged into the review message. */
module ImageRequests {
  import opened Wrappers
  import opened Router
  import opened Database
  import opened Review

  /** `24 * 60 * 60 * 1000` */
  const RequestLifetimeMs: nat := 24 * 60 * 60 * 1000

  /** Discord's channel type of a direct message. */
  const DmChannelType := 1

  datatype PendingRequest = PendingRequest(submissionMessageId: string, listingTitle: string, expiresAt: nat)

  /** `imageRequestListeners`: user id to that user's pending request. */
  type Registry = map<string, PendingRequest>

  /** `Date.now() > request.expiresAt`: a request is still honoured at the instant it expires. */
  predicate Expired(req: PendingRequest, now: nat) {
    now > req.expiresAt
  }

  /** `setupImageListener`: the user's request is (re)placed, expiring 24 hours from now. */
  function Register(reg: Registry, userId: string, submissionMessageId: string, listingTitle: string, now: nat): (r: Registry)
    ensures r.Keys == reg.Keys + {userId}
    ensures r[userId].submissionMessageId == submissionMessageId && r[userId].listingTitle == listingTitle
    ensures !Expired(r[userId], now + RequestLifetimeMs) && Expired(r[userId], now + RequestLifetimeMs + 1)
    ensures forall u | u in reg && u != userId :: r[u] == reg[u]
  {
    reg[userId := PendingRequest(submissionMessageId, listingTitle, now + RequestLifetimeMs)]
  }

  // ---------------------------------------------------------------- direct messages

  datatype Attachment = Attachment(contentType: Option<string>, url: string)

  datatype DirectMessage = DirectMessage(authorId: string, authorIsBot: bool, channelType: int, attachments: seq<Attachment>)

  /** `att.contentType?.startsWith('image/')` */
  predicate IsImage(a: Attachment) {
    a.contentType.Some? && StartsWith(a.contentType.value, "image/")
  }

  /** The urls of the image attachments, in order. */
  function ImageUrls(atts: seq<Attachment>): (urls: seq<string>)
    ensures |urls| <= |atts|
    ensures urls == [] <==> forall j | 0 <= j < |atts| :: !IsImage(atts[j])
    ensures forall i | 0 <= i < |urls| :: exists j | 0 <= j < |atts| :: IsImage(atts[j]) && atts[j].url == urls[i]
    ensures forall j | 0 <= j < |atts| && IsImage(atts[j]) :: atts[j].url in urls
  {
    if atts == [] then []
    else
      var rest := ImageUrls(atts[1..]);
      assert forall j | 1 <= j < |atts| :: atts[j] == atts[1..][j - 1];
      if IsImage(atts[0]) then [atts[0].url] + rest else rest
  }

  /** Attachment `j` is the first image attachment. */
  predicate FirstImageAt(atts: seq<Attachment>, j: nat)
    requires j < |atts|
  {
    IsImage(atts[j]) && forall k | 0 <= k < j :: !IsImage(atts[k])
  }

  /** The first url is that of the first image attachment. */
  lemma {:induction false} ImageUrlsStartWithFirstImage(atts: seq<Attachment>)
    requires ImageUrls(atts) != []
    ensures exists j | 0 <= j < |atts| :: FirstImageAt(atts, j) && atts[j].url == ImageUrls(atts)[0]
  {
    if IsImage(atts[0]) {
      assert FirstImageAt(atts, 0);
    } else {
      var rest := atts[1..];
      assert ImageUrls(atts) == ImageUrls(rest);
      ImageUrlsStartWithFirstImage(rest);
      var j :| 0 <= j < |rest| && FirstImageAt(rest, j) && rest[j].url == ImageUrls(rest)[0];
      forall k | 0 <= k < j + 1
        ensures !IsImage(atts[k])
      {
        if k > 0 {
          assert atts[k] == rest[k - 1];
        }
      }
      assert atts[j + 1] == rest[j];
      assert FirstImageAt(atts, j + 1);
    }
  }

  /** The urls of two batches of attachments are those of the first batch,
      then those of the second: the filter keeps order and repetitions. */
  lemma {:induction false} ImageUrlsConcat(a: seq<Attachment>, b: seq<Attachment>)
    ensures ImageUrls(a + b) == ImageUrls(a) + ImageUrls(b)
  {
    if a == [] {
      assert a + b == b;
    } else {
      var ab := a + b;
      assert ab[0] == a[0] && ab[1..] == a[1..] + b;
      ImageUrlsConcat(a[1..], b);
      assert ImageUrls(ab) == (if IsImage(a[0]) then [a[0].url] else []) + ImageUrls(a[1..] + b);
    }
  }

  /** A direct message from a person who has a pending request. */
  predicate Addressed(reg: Registry, dm: DirectMessage) {
    !dm.authorIsBot && dm.channelType == DmChannelType && dm.authorId in reg
  }

  datatype DmAction = Ignore | DropExpired | KeepWaiting | Deliver(request: PendingRequest, urls: seq<string>)

  /** The guards of the `messageCreate` handler, in their order. */
  function Classify(reg: Registry, dm: DirectMessage, now: nat): (a: DmAction)
    ensures a.Ignore? <==> !Addressed(reg, dm)
    ensures a.DropExpired? <==> Addressed(reg, dm) && Expired(reg[dm.authorId], now)
    ensures a.KeepWaiting? <==> Addressed(reg, dm) && !Expired(reg[dm.authorId], now) && ImageUrls(dm.attachments) == []
    ensures a.Deliver? <==> Addressed(reg, dm) && !Expired(reg[dm.authorId], now) && ImageUrls(dm.attachments) != []
    ensures a.Deliver? ==> a.request == reg[dm.authorId] && a.urls == ImageUrls(dm.attachments)
  {
    if dm.authorIsBot || dm.channelType != DmChannelType || dm.authorId !in reg then Ignore
    else if Expired(reg[dm.authorId], now) then DropExpired
    else
      var urls := ImageUrls(dm.attachments);
      if urls == [] then KeepWaiting else Deliver(reg[dm.authorId], urls)
  }

  /** The registry after the handler: an expired request is dropped, a
      delivered one is consumed once the confirmation reply went out
      (whether or not a review message was found), anything else stays. */
  function RegistryAfter(reg: Registry, dm: DirectMessage, now: nat, replyFails: bool): (r: Registry)
    ensures r.Keys <= reg.Keys
    ensures forall u | u in r :: r[u] == reg[u]
    ensures forall u | u in reg && u != dm.authorId :: u in r
    ensures Classify(reg, dm, now).DropExpired? ==> r == reg - {dm.authorId}
    ensures Classify(reg, dm, now).Deliver? && !replyFails ==> dm.authorId !in r
    ensures Classify(reg, dm, now).Ignore? || Classify(reg, dm, now).KeepWaiting? ==> r == reg
    ensures Classify(reg, dm, now).Deliver? && replyFails ==> r == reg
  {
    match Classify(reg, dm, now)
    case DropExpired => reg - {dm.authorId}
    case Deliver(_, _) => if replyFails then reg else reg - {dm.authorId}
    case _ => reg
  }

  /** A request registered now is honoured by any image DM from that user
      during the next 24 hours, and points at the latest review message. */
  lemma FreshRequestIsHonoured(reg: Registry, userId: string, submissionMessageId: string, listingTitle: string,
                               now: nat, dm: DirectMessage, t: nat)
    requires dm.authorId == userId && !dm.authorIsBot && dm.channelType == DmChannelType
    requires ImageUrls(dm.attachments) != []
    requires t <= now + RequestLifetimeMs
    ensures Classify(Register(reg, userId, submissionMessageId, listingTitle, now), dm, t).Deliver?
    ensures Classify(Register(reg, userId, submissionMessageId, listingTitle, now), dm, t).request.submissionMessageId
            == submissionMessageId
  {
  }

  /** Once a request has expired it is never delivered: not by the message
      that finds it expired, nor by any later message from that user. */
  lemma ExpiredRequestIsNeverDelivered(reg: Registry, dm: DirectMessage, now: nat, replyFails: bool,
                                       later: DirectMessage, t: nat)
    requires dm.authorId in reg && Expired(reg[dm.authorId], now)
    requires later.authorId == dm.authorId && now <= t
    ensures !Classify(reg, dm, now).Deliver?
    ensures !Classify(RegistryAfter(reg, dm, now, replyFails), later, t).Deliver?
  {
    var after := RegistryAfter(reg, dm, now, replyFails);
    if Classify(reg, dm, now).DropExpired? {
      assert dm.authorId !in after;
    } else {
      assert after == reg;
    }
  }

  /** A delivered request is consumed: the same user's next DM is ignored. */
  lemma DeliveryConsumesRequest(reg: Registry, dm: DirectMessage, now: nat, later: DirectMessage, t: nat)
    requires Classify(reg, dm, now).Deliver? && later.authorId == dm.authorId
    ensures Classify(RegistryAfter(reg, dm, now, false), later, t) == Ignore
  {
    assert dm.authorId !in RegistryAfter(reg, dm, now, false);
  }

  // ---------------------------------------------------------------- the 24-hour timer

  /** The `setTimeout` callback as written: delete the user's entry, whatever it holds by then. */
  function TimerCleanupAsWritten(reg: Registry, userId: string): (r: Registry)
    ensures userId !in r && r.Keys == reg.Keys - {userId}
  {
    reg - {userId}
  }

  /** The intended expiry: a sweep drops exactly the requests that have expired by `now`. */
  function SweepExpired(reg: Registry, now: nat): (r: Registry)
    ensures forall u :: u in r <==> u in reg && !Expired(reg[u], now)
    ensures forall u | u in r :: r[u] == reg[u]
  {
    map u | u in reg && !Expired(reg[u], now) :: reg[u]
  }

  /** The timer fires 24 hours after a registration; a second request from the
      same user an hour later is then deleted 23 hours early, which a sweep
      at that instant keeps. */
  lemma TimerDropsRenewedRequest()
    ensures var first := Register(map[], "u", "m1", "Bike", 0);
            var renewed := Register(first, "u", "m2", "Lamp", 3_600_000);
            && !Expired(renewed["u"], RequestLifetimeMs)
            && "u" !in TimerCleanupAsWritten(renewed, "u")
            && "u" in SweepExpired(renewed, RequestLifetimeMs)
  {
  }

  /** A sweep changes no decision of the DM handler: a message that would
      have found its request expired finds none, every other message is
      handled as before. */
  lemma SweepAgreesWithLazyExpiry(reg: Registry, dm: DirectMessage, now: nat, t: nat)
    requires now <= t
    ensures Classify(SweepExpired(reg, now), dm, t) ==
            (if Classify(reg, dm, t).DropExpired? && Expired(reg[dm.authorId], now) then Ignore
             else Classify(reg, dm, t))
  {
    var swept := SweepExpired(reg, now);
    if Addressed(reg, dm) && !Expired(reg[dm.authorId], now) {
      assert dm.authorId in swept && swept[dm.authorId] == reg[dm.authorId];
    }
  }

  // ---------------------------------------------------------------- the handler

  /** What the DM handler did: nothing visible, the error reply, or the
      confirmation together with the configurations it read and the index
      of the one whose review message it updated. */
  datatype DmOutcome =
    | Silent
    | ErrorReply
    | Received(urls: seq<string>, configs: seq<MarketplaceConfig>, hit: Option<nat>)

  class ImageRequestRegistry {
    var listeners: Registry

    constructor ()
      ensures listeners == map[]
    {
      listeners := map[];
    }

    /** `setupImageListener` */
    method SetupImageListener(userId: string, submissionMessageId: string, listingTitle: string, now: nat)
      modifies this
      ensures listeners == Register(old(listeners), userId, submissionMessageId, listingTitle, now)
    {
      listeners := listeners[userId := PendingRequest(submissionMessageId, listingTitle, now + RequestLifetimeMs)];
    }

    /** The sweep that takes the place of the per-registration timers. */
    method Sweep(now: nat)
      modifies this
      ensures listeners == SweepExpired(old(listeners), now)
    {
      listeners := map u | u in listeners && !Expired(listeners[u], now) :: listeners[u];
    }

    /** The `messageCreate` handler. The confirmation reply to the user may
        fail (`replyFails`), which ends in the error reply and keeps the
        request; reading the configurations may fail, which yields none; and
        in each guild a Discord call of the update may be refused (`refused`). */
    method OnDirectMessage(db: Store, dm: DirectMessage, now: nat, world: World, replyFails: bool, configsReadFails: bool,
                           refused: Refusals)
      returns (outcome: DmOutcome, w: World)
      requires db.Valid()
      modifies this
      ensures listeners == RegistryAfter(old(listeners), dm, now, replyFails)
      ensures !Classify(old(listeners), dm, now).Deliver? ==> outcome == Silent && w == world
      ensures Classify(old(listeners), dm, now).Deliver? && replyFails ==> outcome == ErrorReply && w == world
      ensures Classify(old(listeners), dm, now).Deliver? && !replyFails ==>
        && outcome.Received?
        && outcome.urls == ImageUrls(dm.attachments)
        && (configsReadFails ==> outcome.configs == [])
        && (!configsReadFails ==> IsConfigListing(outcome.configs, db.configs))
        && DeliveryOutcome(outcome.configs, world, old(listeners)[dm.authorId].submissionMessageId,
                           outcome.urls, now, refused, outcome.hit, w)
    {
      outcome := Silent;
      w := world;
      if dm.authorIsBot || dm.channelType != DmChannelType || dm.authorId !in listeners {
        return;
      }
      var request := listeners[dm.authorId];
      if Expired(request, now) {
        listeners := listeners - {dm.authorId};
        return;
      }
      var urls := ImageUrls(dm.attachments);
      if urls == [] {
        return;
      }
      if replyFails {
        outcome := ErrorReply;
        return;
      }
      var configs := db.GetAllMarketplaceConfigs(configsReadFails);
      var hit;
      hit, w := DeliverImages(configs, world, request.submissionMessageId, urls, now, refused);
      listeners := listeners - {dm.authorId};
      outcome := Received(urls, configs, hit);
    }
  }
}
