/** index.js calls every function of database.js without `await`. Each such
    call yields a pending Promise, not the row or the number the handler
    expects. This module gives the few JavaScript operations the handlers
    apply to those values, and shows what the code as written computes next
    to what the awaited call gives in `/good`, `/balance`, `/reset`,
    `/leaderboard`, the configuration guards of the marketplace handlers,
    the channel ids the form and approve handlers then read, and the guild
    loop of the direct-message handler. The writes (`setPoints`,
    `resetPoints`, `setMarketplaceConfig`) are not awaited either: their
    failures would surface only as unhandled rejections after the success
    reply, which this module does not model. */
module AsWritten {
  import opened Wrappers
  import opened Decimal
  import opened Database
  import PointsCommands

  /** The JavaScript values involved; a Promise carries the value it settles to. */
  datatype JsValue =
    | JsNull
    | JsNumber(n: int)
    | JsString(s: string)
    | JsArray(items: seq<JsValue>)
    | JsObject(fields: map<string, JsValue>)
    | JsPromise(settled: JsValue)

  /** JavaScript truthiness: objects, arrays and Promises are always truthy. */
  predicate Truthy(v: JsValue) {
    match v
    case JsNull => false
    case JsNumber(n) => n != 0
    case JsString(s) => s != ""
    case JsArray(_) => true
    case JsObject(_) => true
    case JsPromise(_) => true
  }

  /** Calling an `async` function: the caller gets a Promise of the result. */
  function AsyncCall(result: JsValue): (v: JsValue)
    ensures v.JsPromise? && Truthy(v)
  {
    JsPromise(result)
  }

  /** `await v` */
  function Await(v: JsValue): JsValue {
    if v.JsPromise? then v.settled else v
  }

  /** String conversion of a primitive or of an object's default `toString`;
      an array is joined with commas. */
  function ToText(v: JsValue): string
    decreases v, 1
  {
    match v
    case JsNull => "null"
    case JsNumber(n) => IntString(n)
    case JsString(s) => s
    case JsArray(items) => JoinText(v, items, 0)
    case JsObject(_) => "[object Object]"
    case JsPromise(_) => "[object Promise]"
  }

  /** `items.slice(i).join(",")` where `items` are the elements of `whole`;
      `null` elements print as the empty string. */
  function JoinText(whole: JsValue, items: seq<JsValue>, i: nat): string
    requires whole == JsArray(items) && i <= |items|
    decreases whole, 0, |items| - i
  {
    if i == |items| then ""
    else
      var element := if items[i].JsNull? then "" else ToText(items[i]);
      (if i == 0 then "" else ",") + element + JoinText(whole, items, i + 1)
  }

  predicate IsNumeric(v: JsValue) {
    v.JsNumber? || v.JsNull?
  }

  function NumericValue(v: JsValue): int
    requires IsNumeric(v)
  {
    if v.JsNumber? then v.n else 0
  }

  /** `a + b`: numeric addition of numbers (null counting 0), string concatenation otherwise. */
  function Plus(a: JsValue, b: JsValue): (r: JsValue)
    ensures IsNumeric(a) && IsNumeric(b) ==> r == JsNumber(NumericValue(a) + NumericValue(b))
    ensures !(IsNumeric(a) && IsNumeric(b)) ==> r == JsString(ToText(a) + ToText(b))
  {
    if IsNumeric(a) && IsNumeric(b) then JsNumber(NumericValue(a) + NumericValue(b))
    else JsString(ToText(a) + ToText(b))
  }

  /** `v.key`: None where the property is `undefined`. */
  function Property(v: JsValue, key: string): (r: Option<JsValue>)
    ensures v.JsPromise? ==> r.None?
    ensures v.JsArray? && key == "length" ==> r == Some(JsNumber(|v.items|))
  {
    match v
    case JsObject(fields) => if key in fields then Some(fields[key]) else None
    case JsArray(items) => if key == "length" then Some(JsNumber(|items|)) else None
    case JsString(s) => if key == "length" then Some(JsNumber(|s|)) else None
    case _ => None
  }

  /** `${x}` in a template literal, where `undefined` prints as "undefined". */
  function TemplateText(x: Option<JsValue>): string {
    if x.Some? then ToText(x.value) else "undefined"
  }

  /** `v.slice(0, n)`: None where JavaScript throws a TypeError (no `slice` method). */
  function Slice(v: JsValue, n: nat): (r: Option<seq<JsValue>>)
    ensures r.Some? <==> v.JsArray?
    ensures r.Some? ==> r.value == (if |v.items| <= n then v.items else v.items[..n])
  {
    match v
    case JsArray(items) => Some(if |items| <= n then items else items[..n])
    case _ => None
  }

  /** `for (const x of v)`: None where JavaScript throws (`v is not iterable`). */
  function ForOfItems(v: JsValue): (r: Option<seq<JsValue>>)
    ensures r.Some? <==> v.JsArray?
    ensures r.Some? ==> r.value == v.items
  {
    match v
    case JsArray(items) => Some(items)
    case _ => None
  }

  // ---------------------------------------------------------------- database rows as JavaScript values

  function PointsRowValue(row: PointsRow): JsValue {
    JsObject(map["user_id" := JsString(row.userId), "points" := JsNumber(row.points)])
  }

  function ConfigValue(c: MarketplaceConfig): JsValue {
    JsObject(map["guild_id" := JsString(c.guildId),
                 "marketplace_channel_id" := JsString(c.marketplaceChannelId),
                 "submissions_channel_id" := JsString(c.submissionsChannelId)])
  }

  /** What the awaited `getAllPoints()` resolves to. */
  function RowsValue(rows: seq<PointsRow>): JsValue {
    JsArray(seq(|rows|, i requires 0 <= i < |rows| => PointsRowValue(rows[i])))
  }

  /** What the awaited `getMarketplaceConfig(guildId)` resolves to. */
  function ConfigLookupValue(configs: map<string, MarketplaceConfig>, guildId: string): JsValue {
    if guildId in configs then ConfigValue(configs[guildId]) else JsNull
  }

  // ---------------------------------------------------------------- /good

  /** `const newPoints = getPoints(targetUser.id) + 1` as written. */
  function GoodTotalAsWritten(points: map<string, int>, u: string): JsValue {
    Plus(AsyncCall(JsNumber(Lookup(points, u))), JsNumber(1))
  }

  /** As written, `/good` stores and reports the text "[object Promise]1"
      whatever the balance; awaited, it gives the total `HandleGood` writes. */
  lemma AwardConcatenates(points: map<string, int>, u: string)
    ensures GoodTotalAsWritten(points, u) == JsString("[object Promise]1")
    ensures Plus(Await(AsyncCall(JsNumber(Lookup(points, u)))), JsNumber(1))
            == JsNumber(PointsCommands.AwardedTotal(points, u, false))
  {
    assert IntString(1) == "1" by {
      assert DecimalString(1) == [DigitChar(1)];
    }
  }

  // ---------------------------------------------------------------- /balance

  /** `${userPoints}` as written: the text of the pending Promise. */
  function BalanceAsWritten(isOwn: bool, userId: string, points: map<string, int>): string {
    PointsCommands.BalanceMessage(isOwn, userId, ToText(AsyncCall(JsNumber(Lookup(points, userId)))))
  }

  /** As written `/balance` gives the same reply whatever the store holds, one
      that shows "[object Promise]"; awaited, the reply tells the balances apart. */
  lemma BalanceIgnoresTheStore(isOwn: bool, userId: string, p1: map<string, int>, p2: map<string, int>)
    ensures BalanceAsWritten(isOwn, userId, p1) == BalanceAsWritten(isOwn, userId, p2)
                == PointsCommands.BalanceMessage(isOwn, userId, "[object Promise]")
    ensures var shown1 := ToText(Await(AsyncCall(JsNumber(Lookup(p1, userId)))));
            var shown2 := ToText(Await(AsyncCall(JsNumber(Lookup(p2, userId)))));
            (PointsCommands.BalanceMessage(isOwn, userId, shown1) == PointsCommands.BalanceMessage(isOwn, userId, shown2)
             ==> Lookup(p1, userId) == Lookup(p2, userId))
  {
    var a, b := Lookup(p1, userId), Lookup(p2, userId);
    if PointsCommands.BalanceMessage(isOwn, userId, IntString(a)) == PointsCommands.BalanceMessage(isOwn, userId, IntString(b)) {
      PointsCommands.BalanceShowsTheAmount(isOwn, userId, IntString(a), IntString(b));
      IntStringInjective(a, b);
    }
  }

  // ---------------------------------------------------------------- /reset

  /** As written `/reset` reports "(Previously: [object Promise])" for one
      user and "undefined user(s)" for the whole table, since a Promise has
      no `length`; awaited, it reports the balance and the number of rows. */
  lemma ResetRepliesAsWritten(points: map<string, int>, u: string, rows: seq<PointsRow>)
    ensures ToText(AsyncCall(JsNumber(Lookup(points, u)))) == "[object Promise]"
    ensures TemplateText(Property(AsyncCall(RowsValue(rows)), "length")) == "undefined"
    ensures ToText(Await(AsyncCall(JsNumber(Lookup(points, u))))) == IntString(Lookup(points, u))
    ensures TemplateText(Property(Await(AsyncCall(RowsValue(rows))), "length")) == IntString(|rows|)
  {
  }

  // ---------------------------------------------------------------- the configuration guards

  /** `if (!config)` as written in the post, submit-button, form and approve handlers. */
  function NotConfiguredAsWritten(configs: map<string, MarketplaceConfig>, guildId: string): bool {
    !Truthy(AsyncCall(ConfigLookupValue(configs, guildId)))
  }

  /** As written the "not configured" reply is unreachable, so unconfigured
      guilds get the panel and the form; awaited, the guard fires exactly for
      an unconfigured guild. */
  lemma ConfigGuardNeverFires(configs: map<string, MarketplaceConfig>, guildId: string)
    ensures !NotConfiguredAsWritten(configs, guildId)
    ensures !Truthy(Await(AsyncCall(ConfigLookupValue(configs, guildId)))) <==> guildId !in configs
  {
  }

  /** Past the guard, the form and approve handlers read a channel id of the
      Promise, which is `undefined`, and `client.channels.fetch(undefined)`
      rejects; awaited, they read the configured channel. */
  lemma ChannelIdsUndefined(configs: map<string, MarketplaceConfig>, guildId: string)
    ensures Property(AsyncCall(ConfigLookupValue(configs, guildId)), "submissions_channel_id").None?
    ensures Property(AsyncCall(ConfigLookupValue(configs, guildId)), "marketplace_channel_id").None?
    ensures guildId in configs ==>
      && Property(Await(AsyncCall(ConfigLookupValue(configs, guildId))), "submissions_channel_id")
           == Some(JsString(configs[guildId].submissionsChannelId))
      && Property(Await(AsyncCall(ConfigLookupValue(configs, guildId))), "marketplace_channel_id")
           == Some(JsString(configs[guildId].marketplaceChannelId))
  {
  }

  // ---------------------------------------------------------------- /leaderboard

  /** `getAllPoints().slice(0, 10)` as written. */
  function LeaderboardSliceAsWritten(rows: seq<PointsRow>): Option<seq<JsValue>> {
    Slice(AsyncCall(RowsValue(rows)), 10)
  }

  /** As written `/leaderboard` always throws; awaited, it takes the top ten rows. */
  lemma LeaderboardSliceThrows(rows: seq<PointsRow>)
    ensures LeaderboardSliceAsWritten(rows).None?
    ensures var awaited := Slice(Await(AsyncCall(RowsValue(rows))), 10);
            awaited.Some? && |awaited.value| == (if |rows| < 10 then |rows| else 10)
  {
  }

  // ---------------------------------------------------------------- the DM handler

  /** `for (const config of getAllMarketplaceConfigs())` as written. */
  function ConfigLoopAsWritten(configs: seq<MarketplaceConfig>): Option<seq<JsValue>> {
    ForOfItems(AsyncCall(JsArray(seq(|configs|, i requires 0 <= i < |configs| => ConfigValue(configs[i])))))
  }

  /** As written the loop throws before any guild is tried, so submitted
      images always end in the error reply; awaited, every configuration is visited. */
  lemma ConfigLoopThrows(configs: seq<MarketplaceConfig>)
    ensures ConfigLoopAsWritten(configs).None?
    ensures var awaited := ForOfItems(Await(AsyncCall(JsArray(seq(|configs|, i requires 0 <= i < |configs| => ConfigValue(configs[i]))))));
            awaited.Some? && |awaited.value| == |configs|
  {
  }
}
