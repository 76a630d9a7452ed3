/** The review message as the system of record: a submission is kept as its
    pretty-printed JSON inside a fenced block of the message content, and
    every handler that needs it reads it back from there. */
module Codec {
  import opened Wrappers
  import opened SubmissionJson
  import Fence

  /** What a handler finds in a message content. */
  datatype Stored =
    | NoData               // no fenced block: "Could not retrieve submission data!"
    | Malformed            // a fenced block that `JSON.parse` rejects
    | Decoded(record: Submission)

  /** The content the bot writes for a submission: the fenced block's
      capture is exactly the printed JSON. */
  function Content(r: Submission): (s: string)
    ensures Fence.Decode(s) == Some(Encode(r))
  {
    var payload := Encode(r);
    EncodeSafe(r);
    SafeTextHasNoClose(payload);
    Fence.BodyRoundTrip(payload);
    Fence.Body(payload)
  }

  /** `JSON.parse(content.match(/```json\n([\s\S]+?)\n```/)[1])` */
  function ReadContent(content: string): (s: Stored)
    ensures s.NoData? <==> Fence.Decode(content).None?
  {
    match Fence.Decode(content)
    case None => NoData
    case Some(payload) =>
      match Parse(payload)
      case None => Malformed
      case Some(r) => Decoded(r)
  }

  /** A string whose line breaks are never followed by a backtick holds no closing fence. */
  lemma SafeTextHasNoClose(s: string)
    requires NewlineSafe(s)
    ensures forall k :: !Fence.OccursAt(Fence.Close, s, k)
  {
    forall k | 0 <= k && k + 4 <= |s|
      ensures !Fence.OccursAt(Fence.Close, s, k)
    {
      assert s[k..k + 4][0] == s[k] && s[k..k + 4][1] == s[k + 1];
    }
  }

  /** Every submission the bot writes is read back unchanged by every handler. */
  lemma ContentRoundTrip(r: Submission)
    ensures ReadContent(Content(r)) == Decoded(r)
  {
    EncodeRoundTrip(r);
  }

  /** Distinct submissions are stored as distinct contents. */
  lemma ContentInjective(r1: Submission, r2: Submission)
    requires Content(r1) == Content(r2)
    ensures r1 == r2
  {
    ContentRoundTrip(r1);
    ContentRoundTrip(r2);
  }
}
