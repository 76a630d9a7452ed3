/** The submission record and its text form: what
    `JSON.stringify(submissionData, null, 2)` prints for it (two-space
    indentation, keys in insertion order, `additionalImages` omitted while
    undefined), and a reader for exactly that layout. */
module SubmissionJson {
  import opened Wrappers

  /** The object stored in a review message. `additionalImages` is absent
      until the submitter has sent images by DM. */
  datatype Submission = Submission(
    messageId: string,
    title: string,
    description: string,
    price: string,
    contact: string,
    imageUrl: Option<string>,
    userId: string,
    username: string,
    userTag: string,
    additionalImages: Option<seq<string>>)

  // ---------------------------------------------------------------- strings

  function HexDigit(d: nat): (c: char)
    requires d < 16
  {
    if d < 10 then ('0' as int + d) as char else ('a' as int + d - 10) as char
  }

  function HexValue(c: char): (r: Option<nat>)
    ensures r.Some? ==> r.value < 16
  {
    if '0' <= c <= '9' then Some(c as int - '0' as int)
    else if 'a' <= c <= 'f' then Some(c as int - 'a' as int + 10)
    else if 'A' <= c <= 'F' then Some(c as int - 'A' as int + 10)
    else None
  }

  lemma HexRoundTrip(d: nat)
    requires d < 16
    ensures HexValue(HexDigit(d)) == Some(d)
  {
  }

  /** JSON.stringify's escape of one character of a string value. */
  function EscapeChar(c: char): string {
    if c == '"' then "\\\""
    else if c == '\\' then "\\\\"
    else if c as int == 8 then "\\b"
    else if c as int == 12 then "\\f"
    else if c == '\n' then "\\n"
    else if c == '\r' then "\\r"
    else if c == '\t' then "\\t"
    else if c as int < 0x20 then "\\u00" + [HexDigit(c as int / 16), HexDigit(c as int % 16)]
    else [c]
  }

  function Escape(s: string): string {
    if s == [] then [] else EscapeChar(s[0]) + Escape(s[1..])
  }

  function Quote(s: string): string {
    "\"" + Escape(s) + "\""
  }

  /** The character denoted by the escape sequence that follows a backslash,
      and how many characters the sequence takes. `\u` escapes that name a
      surrogate are refused. */
  function UnescapeAt(t: string): (r: Option<(char, nat)>)
    ensures r.Some? ==> 1 <= r.value.1 <= |t|
  {
    if |t| == 0 then None
    else if t[0] == '"' then Some(('"', 1))
    else if t[0] == '\\' then Some(('\\', 1))
    else if t[0] == '/' then Some(('/', 1))
    else if t[0] == 'b' then Some((8 as char, 1))
    else if t[0] == 'f' then Some((12 as char, 1))
    else if t[0] == 'n' then Some(('\n', 1))
    else if t[0] == 'r' then Some(('\r', 1))
    else if t[0] == 't' then Some(('\t', 1))
    else if t[0] == 'u' && |t| >= 5 then
      match (HexValue(t[1]), HexValue(t[2]), HexValue(t[3]), HexValue(t[4]))
      case (Some(a), Some(b), Some(c), Some(d)) =>
        var v := ((a * 16 + b) * 16 + c) * 16 + d;
        if 0xD800 <= v < 0xE000 then None else Some((v as char, 5))
      case _ => None
    else None
  }

  function Prepend(c: char, r: Option<(string, string)>): Option<(string, string)> {
    match r
    case None => None
    case Some(p) => Some(([c] + p.0, p.1))
  }

  /** Reads the rest of a string literal (after its opening quote): the
      decoded value and the text after the closing quote. */
  function ParseStringBody(t: string): (r: Option<(string, string)>)
    ensures r.Some? ==> |r.value.1| < |t|
    decreases |t|
  {
    if |t| == 0 then None
    else if t[0] == '"' then Some(("", t[1..]))
    else if t[0] == '\\' then
      match UnescapeAt(t[1..])
      case None => None
      case Some(e) => Prepend(e.0, ParseStringBody(t[1 + e.1..]))
    else if t[0] as int < 0x20 then None
    else Prepend(t[0], ParseStringBody(t[1..]))
  }

  function ParseQuoted(t: string): (r: Option<(string, string)>)
    ensures r.Some? ==> |r.value.1| < |t|
  {
    if |t| > 0 && t[0] == '"' then ParseStringBody(t[1..]) else None
  }

  lemma EscapeCharStep(c: char, tail: string)
    ensures ParseStringBody(EscapeChar(c) + tail) == Prepend(c, ParseStringBody(tail))
  {
    var t := EscapeChar(c) + tail;
    if c as int < 0x20 && c != '\n' && c != '\r' && c != '\t' && c as int != 8 && c as int != 12 {
      var hi, lo := c as int / 16, c as int % 16;
      HexRoundTrip(hi);
      HexRoundTrip(lo);
      assert t[1..][0] == 'u' && t[1..][1] == '0' && t[1..][2] == '0';
      assert t[1..][3] == HexDigit(hi) && t[1..][4] == HexDigit(lo);
      assert UnescapeAt(t[1..]) == Some((c, 5));
      assert t[6..] == tail;
    } else if |EscapeChar(c)| == 2 {
      assert t[2..] == tail;
    } else {
      assert t[1..] == tail;
    }
  }

  lemma {:induction false} EscapeRoundTrip(s: string, rest: string)
    ensures ParseStringBody(Escape(s) + ("\"" + rest)) == Some((s, rest))
    decreases |s|
  {
    if s == [] {
      assert Escape(s) + ("\"" + rest) == "\"" + rest;
      assert ("\"" + rest)[1..] == rest;
    } else {
      var tail := Escape(s[1..]) + ("\"" + rest);
      assert Escape(s) + ("\"" + rest) == EscapeChar(s[0]) + tail;
      EscapeCharStep(s[0], tail);
      EscapeRoundTrip(s[1..], rest);
      assert [s[0]] + s[1..] == s;
    }
  }

  lemma QuoteRoundTrip(s: string, rest: string)
    ensures ParseQuoted(Quote(s) + rest) == Some((s, rest))
  {
    var t := Quote(s) + rest;
    assert t[1..] == Escape(s) + ("\"" + rest);
    EscapeRoundTrip(s, rest);
  }

  // ---------------------------------------------------------------- layout

  const KeyMessageId := "{\n  \"messageId\": "
  const KeyTitle := ",\n  \"title\": "
  const KeyDescription := ",\n  \"description\": "
  const KeyPrice := ",\n  \"price\": "
  const KeyContact := ",\n  \"contact\": "
  const KeyImageUrl := ",\n  \"imageUrl\": "
  const KeyUserId := ",\n  \"userId\": "
  const KeyUsername := ",\n  \"username\": "
  const KeyUserTag := ",\n  \"userTag\": "
  const KeyAdditionalImages := ",\n  \"additionalImages\": "
  const ObjectEnd := "\n}"
  const ItemStart := "[\n    "
  const ItemSeparator := ",\n    "
  const ArrayEnd := "\n  ]"

  /** One `"key": "value"` member (the key text carries the separator before it). */
  function Entry(key: string, value: string, rest: string): string {
    key + (Quote(value) + rest)
  }

  function ImageUrlEntry(url: Option<string>, rest: string): string {
    match url
    case None => KeyImageUrl + ("null" + rest)
    case Some(u) => Entry(KeyImageUrl, u, rest)
  }

  function Items(xs: seq<string>): string
    requires xs != []
  {
    if |xs| == 1 then Quote(xs[0]) else Quote(xs[0]) + (ItemSeparator + Items(xs[1..]))
  }

  function ArrayText(xs: seq<string>): string {
    if xs == [] then "[]" else ItemStart + (Items(xs) + ArrayEnd)
  }

  function Tail(images: Option<seq<string>>): string {
    match images
    case None => ObjectEnd
    case Some(xs) => KeyAdditionalImages + (ArrayText(xs) + ObjectEnd)
  }

  /** `JSON.stringify(submission, null, 2)`: one object, printed with the
      members in their insertion order. */
  function Encode(r: Submission): (s: string)
    ensures |s| > 0 && s[0] == '{'
    ensures |KeyMessageId| <= |s| && s[..|KeyMessageId|] == KeyMessageId
  {
    Entry(KeyMessageId, r.messageId,
    Entry(KeyTitle, r.title,
    Entry(KeyDescription, r.description,
    Entry(KeyPrice, r.price,
    Entry(KeyContact, r.contact,
    ImageUrlEntry(r.imageUrl,
    Entry(KeyUserId, r.userId,
    Entry(KeyUsername, r.username,
    Entry(KeyUserTag, r.userTag,
    Tail(r.additionalImages))))))))))
  }

  // ---------------------------------------------------------------- reader

  function ExpectLit(lit: string, t: string): (r: Option<string>)
    ensures r.Some? ==> |r.value| <= |t|
  {
    if |lit| <= |t| && t[..|lit|] == lit then Some(t[|lit|..]) else None
  }

  lemma ExpectLitPrefix(lit: string, rest: string)
    ensures ExpectLit(lit, lit + rest) == Some(rest)
  {
    assert (lit + rest)[..|lit|] == lit;
    assert (lit + rest)[|lit|..] == rest;
  }

  function ParseEntry(key: string, t: string): (r: Option<(string, string)>)
    ensures r.Some? ==> |r.value.1| < |t|
  {
    match ExpectLit(key, t)
    case None => None
    case Some(t1) => ParseQuoted(t1)
  }

  lemma EntryRoundTrip(key: string, value: string, rest: string)
    ensures ParseEntry(key, Entry(key, value, rest)) == Some((value, rest))
  {
    ExpectLitPrefix(key, Quote(value) + rest);
    QuoteRoundTrip(value, rest);
  }

  function ParseImageUrl(t: string): Option<(Option<string>, string)> {
    match ExpectLit(KeyImageUrl, t)
    case None => None
    case Some(t1) =>
      match ExpectLit("null", t1)
      case Some(t2) => Some((None, t2))
      case None =>
        match ParseQuoted(t1)
        case None => None
        case Some(p) => Some((Some(p.0), p.1))
  }

  lemma ImageUrlRoundTrip(url: Option<string>, rest: string)
    ensures ParseImageUrl(ImageUrlEntry(url, rest)) == Some((url, rest))
  {
    match url
    case None =>
      ExpectLitPrefix(KeyImageUrl, "null" + rest);
      ExpectLitPrefix("null", rest);
    case Some(u) =>
      ExpectLitPrefix(KeyImageUrl, Quote(u) + rest);
      QuoteRoundTrip(u, rest);
      assert (Quote(u) + rest)[0] == '"';
      assert ExpectLit("null", Quote(u) + rest) == None by {
        if 4 <= |Quote(u) + rest| {
          assert (Quote(u) + rest)[..4][0] == '"';
        }
      }
  }

  /** Items of a non-empty array, up to and including its closing bracket. */
  function ParseItems(t: string): (r: Option<(seq<string>, string)>)
    ensures r.Some? ==> |r.value.1| < |t|
    decreases |t|
  {
    match ParseQuoted(t)
    case None => None
    case Some(p) =>
      match ExpectLit(ItemSeparator, p.1)
      case Some(t2) =>
        (match ParseItems(t2)
         case None => None
         case Some(q) => Some(([p.0] + q.0, q.1)))
      case None =>
        match ExpectLit(ArrayEnd, p.1)
        case None => None
        case Some(t3) => Some(([p.0], t3))
  }

  lemma {:induction false} ItemsRoundTrip(xs: seq<string>, rest: string)
    requires xs != []
    ensures ParseItems(Items(xs) + (ArrayEnd + rest)) == Some((xs, rest))
    decreases |xs|
  {
    var tail := ArrayEnd + rest;
    if |xs| == 1 {
      QuoteRoundTrip(xs[0], tail);
      assert ExpectLit(ItemSeparator, tail) == None by {
        assert tail[1] == ' ';
        if |ItemSeparator| <= |tail| {
          assert tail[..|ItemSeparator|][1] == ' ';
        }
      }
      ExpectLitPrefix(ArrayEnd, rest);
      assert [xs[0]] == xs;
    } else {
      var more := ItemSeparator + (Items(xs[1..]) + tail);
      assert Items(xs) + tail == Quote(xs[0]) + more;
      QuoteRoundTrip(xs[0], more);
      ExpectLitPrefix(ItemSeparator, Items(xs[1..]) + tail);
      ItemsRoundTrip(xs[1..], rest);
      assert [xs[0]] + xs[1..] == xs;
    }
  }

  function ParseArray(t: string): Option<(seq<string>, string)> {
    match ExpectLit("[]", t)
    case Some(t1) => Some(([], t1))
    case None =>
      match ExpectLit(ItemStart, t)
      case None => None
      case Some(t2) => ParseItems(t2)
  }

  /** A non-empty array never reads as `[]`. */
  lemma ItemStartIsNotEmptyArray(u: string)
    ensures ExpectLit("[]", ItemStart + u) == None
  {
    var t := ItemStart + u;
    assert t[1] == '\n';
    assert t[..2][1] == '\n';
  }

  lemma ArrayRoundTrip(xs: seq<string>, rest: string)
    ensures ParseArray(ArrayText(xs) + rest) == Some((xs, rest))
  {
    if xs == [] {
      ExpectLitPrefix("[]", rest);
    } else {
      var u := Items(xs) + (ArrayEnd + rest);
      assert ArrayText(xs) + rest == ItemStart + u;
      ItemStartIsNotEmptyArray(u);
      ExpectLitPrefix(ItemStart, u);
      ItemsRoundTrip(xs, rest);
    }
  }

  /** The members after `userTag`: an optional `additionalImages` array, then
      the end of the object, which must also be the end of the text. */
  function ParseTail(t: string): Option<Option<seq<string>>> {
    if t == ObjectEnd then Some(None)
    else
      match ExpectLit(KeyAdditionalImages, t)
      case None => None
      case Some(t1) =>
        match ParseArray(t1)
        case None => None
        case Some(p) => if p.1 == ObjectEnd then Some(Some(p.0)) else None
  }

  lemma TailRoundTrip(images: Option<seq<string>>)
    ensures ParseTail(Tail(images)) == Some(images)
  {
    match images
    case None =>
    case Some(xs) =>
      var t := Tail(images);
      assert t != ObjectEnd by {
        assert t[0] == ',';
      }
      ExpectLitPrefix(KeyAdditionalImages, ArrayText(xs) + ObjectEnd);
      ArrayRoundTrip(xs, ObjectEnd);
  }

  /** `JSON.parse` of a stored payload, for the layout `Encode` prints: the
      text must open with the `messageId` member. */
  function Parse(t: string): (r: Option<Submission>)
    ensures r.Some? ==> |KeyMessageId| <= |t| && t[..|KeyMessageId|] == KeyMessageId
  {
    var messageId :- ParseEntry(KeyMessageId, t);
    var title :- ParseEntry(KeyTitle, messageId.1);
    var description :- ParseEntry(KeyDescription, title.1);
    var price :- ParseEntry(KeyPrice, description.1);
    var contact :- ParseEntry(KeyContact, price.1);
    var imageUrl :- ParseImageUrl(contact.1);
    var userId :- ParseEntry(KeyUserId, imageUrl.1);
    var username :- ParseEntry(KeyUsername, userId.1);
    var userTag :- ParseEntry(KeyUserTag, username.1);
    var images :- ParseTail(userTag.1);
    Some(Submission(messageId.0, title.0, description.0, price.0, contact.0, imageUrl.0,
                    userId.0, username.0, userTag.0, images))
  }

  /** Reading back what was written gives the same record, field for field. */
  lemma EncodeRoundTrip(r: Submission)
    ensures Parse(Encode(r)) == Some(r)
  {
    var t9 := Tail(r.additionalImages);
    var t8 := Entry(KeyUserTag, r.userTag, t9);
    var t7 := Entry(KeyUsername, r.username, t8);
    var t6 := Entry(KeyUserId, r.userId, t7);
    var t5 := ImageUrlEntry(r.imageUrl, t6);
    var t4 := Entry(KeyContact, r.contact, t5);
    var t3 := Entry(KeyPrice, r.price, t4);
    var t2 := Entry(KeyDescription, r.description, t3);
    var t1 := Entry(KeyTitle, r.title, t2);
    EntryRoundTrip(KeyMessageId, r.messageId, t1);
    EntryRoundTrip(KeyTitle, r.title, t2);
    EntryRoundTrip(KeyDescription, r.description, t3);
    EntryRoundTrip(KeyPrice, r.price, t4);
    EntryRoundTrip(KeyContact, r.contact, t5);
    ImageUrlRoundTrip(r.imageUrl, t6);
    EntryRoundTrip(KeyUserId, r.userId, t7);
    EntryRoundTrip(KeyUsername, r.username, t8);
    EntryRoundTrip(KeyUserTag, r.userTag, t9);
    TailRoundTrip(r.additionalImages);
  }

  // ---------------------------------------------------------------- line breaks

  /** Every line break is followed by another character, never a backtick. */
  predicate NewlineSafe(s: string) {
    forall i | 0 <= i < |s| && s[i] == '\n' :: i + 1 < |s| && s[i + 1] != '`'
  }

  lemma ConcatSafe(a: string, b: string)
    requires NewlineSafe(a) && NewlineSafe(b)
    ensures NewlineSafe(a + b)
  {
    var s := a + b;
    forall i | 0 <= i < |s| && s[i] == '\n'
      ensures i + 1 < |s| && s[i + 1] != '`'
    {
      if i < |a| {
        assert a[i] == '\n';
        assert s[i + 1] == a[i + 1];
      } else {
        assert b[i - |a|] == '\n';
        assert s[i + 1] == b[i - |a| + 1];
      }
    }
  }

  /** An escaped string holds no raw line break. */
  lemma {:induction false} EscapeHasNoNewline(s: string)
    ensures forall i | 0 <= i < |Escape(s)| :: Escape(s)[i] != '\n'
    decreases |s|
  {
    if s != [] {
      EscapeHasNoNewline(s[1..]);
      var e := EscapeChar(s[0]);
      assert forall i | 0 <= i < |e| :: e[i] != '\n';
      assert Escape(s) == e + Escape(s[1..]);
    }
  }

  lemma QuoteSafe(s: string)
    ensures NewlineSafe(Quote(s))
  {
    EscapeHasNoNewline(s);
    var q := Quote(s);
    assert forall i | 0 <= i < |q| :: q[i] != '\n' by {
      forall i | 0 <= i < |q|
        ensures q[i] != '\n'
      {
        if 1 <= i < |q| - 1 {
          assert q[i] == Escape(s)[i - 1];
        }
      }
    }
  }

  lemma KeysSafe()
    ensures NewlineSafe(KeyMessageId) && NewlineSafe(KeyTitle) && NewlineSafe(KeyDescription)
    ensures NewlineSafe(KeyPrice) && NewlineSafe(KeyContact) && NewlineSafe(KeyImageUrl)
    ensures NewlineSafe(KeyUserId) && NewlineSafe(KeyUsername) && NewlineSafe(KeyUserTag)
    ensures NewlineSafe(KeyAdditionalImages) && NewlineSafe(ObjectEnd)
    ensures NewlineSafe(ItemStart) && NewlineSafe(ItemSeparator) && NewlineSafe(ArrayEnd)
    ensures NewlineSafe("null") && NewlineSafe("[]")
  {
  }

  lemma EntrySafe(key: string, value: string, rest: string)
    requires NewlineSafe(key) && NewlineSafe(rest)
    ensures NewlineSafe(Entry(key, value, rest))
  {
    QuoteSafe(value);
    ConcatSafe(Quote(value), rest);
    ConcatSafe(key, Quote(value) + rest);
  }

  lemma {:induction false} ItemsSafe(xs: seq<string>)
    requires xs != []
    ensures NewlineSafe(Items(xs))
    decreases |xs|
  {
    KeysSafe();
    QuoteSafe(xs[0]);
    if |xs| > 1 {
      ItemsSafe(xs[1..]);
      ConcatSafe(ItemSeparator, Items(xs[1..]));
      ConcatSafe(Quote(xs[0]), ItemSeparator + Items(xs[1..]));
    }
  }

  lemma TailSafe(images: Option<seq<string>>)
    ensures NewlineSafe(Tail(images))
  {
    KeysSafe();
    match images
    case None =>
    case Some(xs) =>
      if xs != [] {
        ItemsSafe(xs);
        ConcatSafe(Items(xs), ArrayEnd);
        ConcatSafe(ItemStart, Items(xs) + ArrayEnd);
      }
      ConcatSafe(ArrayText(xs), ObjectEnd);
      ConcatSafe(KeyAdditionalImages, ArrayText(xs) + ObjectEnd);
  }

  /** Pretty-printed output never puts a backtick at the start of a line. */
  lemma EncodeSafe(r: Submission)
    ensures NewlineSafe(Encode(r))
  {
    KeysSafe();
    var t9 := Tail(r.additionalImages);
    TailSafe(r.additionalImages);
    var t8 := Entry(KeyUserTag, r.userTag, t9);
    EntrySafe(KeyUserTag, r.userTag, t9);
    var t7 := Entry(KeyUsername, r.username, t8);
    EntrySafe(KeyUsername, r.username, t8);
    var t6 := Entry(KeyUserId, r.userId, t7);
    EntrySafe(KeyUserId, r.userId, t7);
    var t5 := ImageUrlEntry(r.imageUrl, t6);
    match r.imageUrl {
      case None =>
        ConcatSafe("null", t6);
        ConcatSafe(KeyImageUrl, "null" + t6);
      case Some(u) =>
        EntrySafe(KeyImageUrl, u, t6);
    }
    var t4 := Entry(KeyContact, r.contact, t5);
    EntrySafe(KeyContact, r.contact, t5);
    var t3 := Entry(KeyPrice, r.price, t4);
    EntrySafe(KeyPrice, r.price, t4);
    var t2 := Entry(KeyDescription, r.description, t3);
    EntrySafe(KeyDescription, r.description, t3);
    var t1 := Entry(KeyTitle, r.title, t2);
    EntrySafe(KeyTitle, r.title, t2);
    EntrySafe(KeyMessageId, r.messageId, t1);
  }
}
