/** The message body that carries a submission: a payload between a
    "```json" line and a closing "```", read back with the regular expression
    /```json\n([\s\S]+?)\n```/ (leftmost match, shortest non-empty payload). */
module Fence {
  import opened Wrappers

  const Open := "```json\n"
  const Close := "\n```"

  /** The message content the bot writes around a payload. */
  function Body(payload: string): string {
    Open + payload + Close
  }

  predicate OccursAt(pattern: string, s: string, i: int) {
    0 <= i && i + |pattern| <= |s| && s[i..i + |pattern|] == pattern
  }

  /** The first closing fence at or after position j. */
  function FindClose(s: string, j: nat): (r: Option<nat>)
    ensures r.Some? ==> j <= r.value && OccursAt(Close, s, r.value)
    ensures r.Some? ==> forall k | j <= k < r.value :: !OccursAt(Close, s, k)
    ensures r.None? ==> forall k | j <= k :: !OccursAt(Close, s, k)
    decreases |s| - j
  {
    if j + |Close| > |s| then None
    else if OccursAt(Close, s, j) then Some(j)
    else FindClose(s, j + 1)
  }

  /** A window of a slice is the same window of the whole sequence. */
  lemma SliceOfSlice(s: string, a: nat, b: nat, k: nat, n: nat)
    requires a <= b <= |s| && k + n <= b - a
    ensures s[a..b][k..k + n] == s[a + k..a + k + n]
  {
    var y := s[a..b][k..k + n];
    var z := s[a + k..a + k + n];
    assert forall t | 0 <= t < n :: y[t] == z[t];
    assert y == z;
  }

  /** The regular expression tried at position i: the opening fence, then the
      lazy `[\s\S]+?` (at least one character) up to the first closing fence. */
  function MatchAt(s: string, i: nat): (r: Option<string>)
    ensures r.Some? ==> |r.value| >= 1 && forall k | 1 <= k :: !OccursAt(Close, r.value, k)
  {
    if OccursAt(Open, s, i) then
      match FindClose(s, i + |Open| + 1)
      case None => None
      case Some(j) =>
        var p := s[i + |Open|..j];
        forall k | 1 <= k
          ensures !OccursAt(Close, p, k)
        {
          if k + |Close| <= |p| {
            SliceOfSlice(s, i + |Open|, j, k, |Close|);
            assert !OccursAt(Close, s, i + |Open| + k);
          }
        }
        Some(p)
    else None
  }

  function FirstMatch(s: string, i: nat): (r: Option<string>)
    ensures r.Some? ==> |r.value| >= 1 && forall k | 1 <= k :: !OccursAt(Close, r.value, k)
    decreases |s| - i
  {
    if i + |Open| > |s| then None
    else
      match MatchAt(s, i)
      case Some(p) => Some(p)
      case None => FirstMatch(s, i + 1)
  }

  /** `content.match(/```json\n([\s\S]+?)\n```/)`, group 1: a non-empty payload
      with no closing fence after its first character. */
  function Decode(content: string): (r: Option<string>)
    ensures r.Some? ==> |r.value| >= 1 && forall k | 1 <= k :: !OccursAt(Close, r.value, k)
  {
    FirstMatch(content, 0)
  }

  /** A payload free of closing fences reads back from its own body unchanged. */
  lemma BodyRoundTrip(payload: string)
    requires |payload| >= 1
    requires forall k :: !OccursAt(Close, payload, k)
    ensures Decode(Body(payload)) == Some(payload)
  {
    var s := Body(payload);
    var end := |Open| + |payload|;
    assert s[..|Open|] == Open;
    assert OccursAt(Open, s, 0);
    assert s[end..end + |Close|] == Close;
    assert OccursAt(Close, s, end);
    forall k | |Open| + 1 <= k < end
      ensures !OccursAt(Close, s, k)
    {
      if k + |Close| <= end {
        assert s[k..k + |Close|] == payload[k - |Open|..k - |Open| + |Close|];
        assert !OccursAt(Close, payload, k - |Open|);
      } else {
        var d := end - k;
        assert 1 <= d < |Close|;
        assert s[k + d] == '\n';
        assert Close[d] == '`';
        assert s[k..k + |Close|][d] == s[k + d];
      }
    }
    match FindClose(s, |Open| + 1)
    case None =>
      assert false;
    case Some(j) =>
      assert j == end;
      assert s[|Open|..end] == payload;
  }

  lemma {:induction false} NoOpeningFromHere(s: string, i: nat)
    requires forall k :: !OccursAt(Open, s, k)
    ensures FirstMatch(s, i) == None
    decreases |s| - i
  {
    if i + |Open| <= |s| {
      assert MatchAt(s, i) == None;
      NoOpeningFromHere(s, i + 1);
    }
  }

  /** Content without an opening fence yields no match at all. */
  lemma NoOpeningNoMatch(content: string)
    requires forall k :: !OccursAt(Open, content, k)
    ensures Decode(content) == None
  {
    NoOpeningFromHere(content, 0);
  }
}
