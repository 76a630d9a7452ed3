/** The `interactionCreate` dispatcher of index.js and the custom-id scheme of
    the buttons and forms it routes. */
module Router {
  import opened Decimal

  const SubmitButtonId := "marketplace_submit"
  const ApprovePrefix := "marketplace_approve_"
  const RequestImagesPrefix := "marketplace_request_images_"
  const DeclinePrefix := "marketplace_decline_"
  const SubmissionModalId := "marketplace_modal"
  const DeclineReasonModalId := "decline_reason_modal"

  /** `${Date.now()}_${interaction.user.id}` */
  function SubmissionId(now: nat, userId: string): string {
    DecimalString(now) + "_" + userId
  }

  function ApproveButtonId(submissionId: string): string { ApprovePrefix + submissionId }
  function RequestImagesButtonId(submissionId: string): string { RequestImagesPrefix + submissionId }
  function DeclineButtonId(submissionId: string): string { DeclinePrefix + submissionId }

  predicate StartsWith(s: string, prefix: string) {
    |prefix| <= |s| && s[..|prefix|] == prefix
  }

  datatype Interaction =
    | ChatCommand(commandName: string)
    | ButtonPress(customId: string)
    | ModalSubmit(customId: string)
    | OtherInteraction

  /** The handler an interaction reaches, with the payload decoded from its id. */
  datatype Route =
    | Good | Balance | Reset | Leaderboard | MarketplaceSetup | MarketplacePost
    | SubmitButton
    | Approve(submissionId: string)
    | RequestImages(submissionId: string)
    | Decline(submissionId: string)
    | SubmissionForm
    | DeclineReasonForm
    | Unrouted

  /** Each route is reached from one kind of interaction only, and a review
      route carries exactly the id that follows its prefix. */
  function Dispatch(i: Interaction): (r: Route)
    ensures r.Good? <==> i == ChatCommand("good")
    ensures r.Balance? <==> i == ChatCommand("balance")
    ensures r.Reset? <==> i == ChatCommand("reset")
    ensures r.Leaderboard? <==> i == ChatCommand("leaderboard")
    ensures r.MarketplaceSetup? <==> i == ChatCommand("marketplace-setup")
    ensures r.MarketplacePost? <==> i == ChatCommand("marketplace-post")
    ensures r.SubmitButton? <==> i == ButtonPress(SubmitButtonId)
    ensures r.SubmissionForm? <==> i == ModalSubmit(SubmissionModalId)
    ensures r.DeclineReasonForm? <==> i == ModalSubmit(DeclineReasonModalId)
    ensures r.Approve? ==> i == ButtonPress(ApproveButtonId(r.submissionId))
    ensures r.RequestImages? ==> i == ButtonPress(RequestImagesButtonId(r.submissionId))
    ensures r.Decline? ==> i == ButtonPress(DeclineButtonId(r.submissionId))
    ensures i.OtherInteraction? ==> r.Unrouted?
  {
    match i
    case ChatCommand(name) =>
      if name == "good" then Good
      else if name == "balance" then Balance
      else if name == "reset" then Reset
      else if name == "leaderboard" then Leaderboard
      else if name == "marketplace-setup" then MarketplaceSetup
      else if name == "marketplace-post" then MarketplacePost
      else Unrouted
    case ButtonPress(id) =>
      if id == SubmitButtonId then SubmitButton
      else if StartsWith(id, ApprovePrefix) then
        assert id == ApprovePrefix + id[|ApprovePrefix|..];
        Approve(id[|ApprovePrefix|..])
      else if StartsWith(id, RequestImagesPrefix) then
        assert id == RequestImagesPrefix + id[|RequestImagesPrefix|..];
        RequestImages(id[|RequestImagesPrefix|..])
      else if StartsWith(id, DeclinePrefix) then
        assert id == DeclinePrefix + id[|DeclinePrefix|..];
        Decline(id[|DeclinePrefix|..])
      else Unrouted
    case ModalSubmit(id) =>
      if id == SubmissionModalId then SubmissionForm
      else if id == DeclineReasonModalId then DeclineReasonForm
      else Unrouted
    case OtherInteraction => Unrouted
  }

  /** The three review-button prefixes and the submit id: none is a prefix of another. */
  lemma PrefixesDisjoint(s: string)
    ensures !StartsWith(RequestImagesPrefix + s, ApprovePrefix)
    ensures !StartsWith(DeclinePrefix + s, ApprovePrefix)
    ensures !StartsWith(DeclinePrefix + s, RequestImagesPrefix)
    ensures !StartsWith(ApprovePrefix + s, RequestImagesPrefix) && !StartsWith(ApprovePrefix + s, DeclinePrefix)
    ensures !StartsWith(RequestImagesPrefix + s, DeclinePrefix)
    ensures ApprovePrefix + s != SubmitButtonId && RequestImagesPrefix + s != SubmitButtonId
    ensures DeclinePrefix + s != SubmitButtonId
  {
    // the prefixes first differ at position 12: 'a', 'r', 'd'
    assert (ApprovePrefix + s)[12] == 'a';
    assert (RequestImagesPrefix + s)[12] == 'r';
    assert (DeclinePrefix + s)[12] == 'd';
    assert (RequestImagesPrefix + s)[..|ApprovePrefix|][12] == 'r';
    assert (DeclinePrefix + s)[..|ApprovePrefix|][12] == 'd';
    if |DeclinePrefix + s| >= |RequestImagesPrefix| {
      assert (DeclinePrefix + s)[..|RequestImagesPrefix|][12] == 'd';
    }
    assert (ApprovePrefix + s)[..|ApprovePrefix|][12] == 'a';
    if |ApprovePrefix + s| >= |RequestImagesPrefix| {
      assert (ApprovePrefix + s)[..|RequestImagesPrefix|][12] == 'a';
    }
    if |RequestImagesPrefix + s| >= |DeclinePrefix| {
      assert (RequestImagesPrefix + s)[..|DeclinePrefix|][12] == 'r';
    }
    assert (ApprovePrefix + s)[..|DeclinePrefix|][12] == 'a';
  }

  /** Every review button routes to its own handler with its own submission id. */
  lemma ReviewButtonsRoute(submissionId: string)
    ensures Dispatch(ButtonPress(ApproveButtonId(submissionId))) == Approve(submissionId)
    ensures Dispatch(ButtonPress(RequestImagesButtonId(submissionId))) == RequestImages(submissionId)
    ensures Dispatch(ButtonPress(DeclineButtonId(submissionId))) == Decline(submissionId)
  {
    PrefixesDisjoint(submissionId);
    assert (ApprovePrefix + submissionId)[|ApprovePrefix|..] == submissionId;
    assert (RequestImagesPrefix + submissionId)[|RequestImagesPrefix|..] == submissionId;
    assert (DeclinePrefix + submissionId)[|DeclinePrefix|..] == submissionId;
  }

  /** And only those ids reach the review handlers: routing decodes the id exactly. */
  lemma ReviewRoutesOnlyFromTheirButtons(id: string, submissionId: string)
    ensures Dispatch(ButtonPress(id)) == Approve(submissionId) <==> id == ApproveButtonId(submissionId)
    ensures Dispatch(ButtonPress(id)) == RequestImages(submissionId) <==> id == RequestImagesButtonId(submissionId)
    ensures Dispatch(ButtonPress(id)) == Decline(submissionId) <==> id == DeclineButtonId(submissionId)
  {
    ReviewButtonsRoute(submissionId);
    if StartsWith(id, ApprovePrefix) {
      assert id == ApprovePrefix + id[|ApprovePrefix|..];
    }
    if StartsWith(id, RequestImagesPrefix) {
      assert id == RequestImagesPrefix + id[|RequestImagesPrefix|..];
    }
    if StartsWith(id, DeclinePrefix) {
      assert id == DeclinePrefix + id[|DeclinePrefix|..];
    }
  }

  /** Position of the first underscore of s, or |s| when it has none. */
  function UnderscoreIndex(s: string): (k: nat)
    ensures k <= |s|
  {
    if s == [] then 0 else if s[0] == '_' then 0 else 1 + UnderscoreIndex(s[1..])
  }

  lemma {:induction false} UnderscoreAfterNumeral(d: string, rest: string)
    requires AllDigits(d)
    ensures UnderscoreIndex(d + "_" + rest) == |d|
  {
    if d != [] {
      assert (d + "_" + rest)[1..] == d[1..] + "_" + rest;
      UnderscoreAfterNumeral(d[1..], rest);
    }
  }

  /** Submission ids never collide for different (time, submitter) pairs,
      because a numeral holds no underscore. */
  lemma SubmissionIdInjective(t1: nat, u1: string, t2: nat, u2: string)
    requires SubmissionId(t1, u1) == SubmissionId(t2, u2)
    ensures t1 == t2 && u1 == u2
  {
    var d1, d2 := DecimalString(t1), DecimalString(t2);
    var s := SubmissionId(t1, u1);
    UnderscoreAfterNumeral(d1, u1);
    UnderscoreAfterNumeral(d2, u2);
    assert |d1| == |d2|;
    assert s == d1 + ("_" + u1) && s == d2 + ("_" + u2);
    assert d1 == s[..|d1|] == d2;
    DecimalStringInjective(t1, t2);
    assert "_" + u1 == s[|d1|..] == "_" + u2;
    assert u1 == ("_" + u1)[1..] == ("_" + u2)[1..] == u2;
  }
}
