/** The points commands of index.js — `/good`, `/balance`, `/reset` and
    `/leaderboard` — over the points table of the store. */
module PointsCommands {
  import opened Wrappers
  import opened Decimal
  import opened Permissions
  import opened Database
  import opened Review

  /** A Discord user as the handlers see it. */
  datatype User = User(id: string, isBot: bool, username: string)

  predicate NonNegative(points: map<string, int>) {
    forall u | u in points :: points[u] >= 0
  }

  // ---------------------------------------------------------------- /good

  datatype GoodResult = NotPermitted | TargetIsBot | TargetIsSelf | Awarded(total: int) | AwardFailed

  /** The total `/good` writes: one more than what was read, and a failed read reads 0. */
  function AwardedTotal(points: map<string, int>, u: string, readFails: bool): int {
    (if readFails then 0 else Lookup(points, u)) + 1
  }

  /** An award adds exactly one point to its target, touches nobody else and
      keeps the table non-negative; after a failed read it resets the target to 1. */
  lemma AwardRaisesOnlyTheTarget(points: map<string, int>, u: string, readFails: bool)
    ensures var after := Upsert(points, u, AwardedTotal(points, u, readFails));
            && (!readFails ==> Lookup(after, u) == Lookup(points, u) + 1)
            && (readFails ==> Lookup(after, u) == 1)
            && (forall v | v != u :: Lookup(after, v) == Lookup(points, v))
            && (NonNegative(points) ==> NonNegative(after))
  {
  }

  /** `handleGoodCommand`, its awaits in place. */
  method HandleGood(db: Store, member: Member, caller: User, target: User, readFails: bool, writeFails: bool)
    returns (r: GoodResult)
    modifies db
    ensures !Allows(member, AwardPoints) ==> r == NotPermitted
    ensures Allows(member, AwardPoints) && target.isBot ==> r == TargetIsBot
    ensures Allows(member, AwardPoints) && !target.isBot && target.id == caller.id ==> r == TargetIsSelf
    ensures Allows(member, AwardPoints) && !target.isBot && target.id != caller.id ==>
      r == (if writeFails then AwardFailed else Awarded(AwardedTotal(old(db.points), target.id, readFails)))
    ensures db.points == (if r.Awarded? then Upsert(old(db.points), target.id, r.total) else old(db.points))
    ensures db.configs == old(db.configs)
  {
    if !(Has(member, Administrator) || HasAllowedRole(member)) {
      return NotPermitted;
    }
    if target.isBot {
      return TargetIsBot;
    }
    if target.id == caller.id {
      return TargetIsSelf;
    }
    var current := db.GetPoints(target.id, readFails);
    var total := current + 1;
    var res := db.SetPoints(target.id, total, writeFails);
    if res == WriteFailed {
      return AwardFailed;
    }
    r := Awarded(total);
  }

  // ---------------------------------------------------------------- /balance

  /** The balance reply around `${userPoints}`, the text of the balance: it
      ends with that text, and names the user unless it is the caller's own. */
  function BalanceMessage(isOwn: bool, userId: string, shown: string): (s: string)
    ensures var amount := "**" + shown + "** point(s).";
            |amount| <= |s| && s[|s| - |amount|..] == amount
    ensures !isOwn ==> (var head := "💰 " + Mention(userId); |head| <= |s| && s[..|head|] == head)
  {
    var amount := "**" + shown + "** point(s).";
    var who := if isOwn then "💰 You have " else "💰 " + Mention(userId) + " has ";
    assert (who + amount)[|who|..] == amount;
    assert !isOwn ==> (who + amount)[..|"💰 " + Mention(userId)|] == "💰 " + Mention(userId);
    who + amount
  }

  /** `handleBalanceCommand`: the named user, or the caller when none is named. */
  method HandleBalance(db: Store, caller: User, target: Option<User>, readFails: bool) returns (message: string)
    ensures var shown := if target.Some? then target.value else caller;
            message == BalanceMessage(shown.id == caller.id, shown.id,
                                      IntString(if readFails then 0 else Lookup(db.points, shown.id)))
  {
    var shown := if target.Some? then target.value else caller;
    var p := db.GetPoints(shown.id, readFails);
    message := BalanceMessage(shown.id == caller.id, shown.id, IntString(p));
  }

  /** The reply shows the balance's text exactly: different texts give different replies. */
  lemma BalanceShowsTheAmount(isOwn: bool, userId: string, a: string, b: string)
    requires BalanceMessage(isOwn, userId, a) == BalanceMessage(isOwn, userId, b)
    ensures a == b
  {
    var s := BalanceMessage(isOwn, userId, a);
    var who := if isOwn then "💰 You have " else "💰 " + Mention(userId) + " has ";
    var amountA, amountB := "**" + a + "** point(s).", "**" + b + "** point(s).";
    assert s == who + amountA && s == who + amountB;
    assert amountA == s[|who|..] == amountB;
    assert a == amountA[2..2 + |a|];
    assert |a| == |b|;
    assert b == amountB[2..2 + |b|];
  }

  // ---------------------------------------------------------------- /reset

  datatype ResetResult = ResetDenied | UserReset(previous: int) | AllReset(userCount: nat) | ResetFailed

  /** `handleResetCommand`: one user zeroed (reporting the previous balance) or the whole table cleared
      (reporting how many users it held). */
  method HandleReset(db: Store, member: Member, target: Option<User>, readFails: bool, writeFails: bool)
    returns (r: ResetResult)
    modifies db
    ensures !Allows(member, ResetPoints) ==> r == ResetDenied && db.points == old(db.points)
    ensures Allows(member, ResetPoints) && writeFails ==> r == ResetFailed && db.points == old(db.points)
    ensures Allows(member, ResetPoints) && !writeFails && target.Some? ==>
      && r == UserReset(if readFails then 0 else Lookup(old(db.points), target.value.id))
      && db.points == ResetTarget(old(db.points), Some(target.value.id))
    ensures Allows(member, ResetPoints) && !writeFails && target.None? ==>
      r == AllReset(if readFails then 0 else |old(db.points)|) && db.points == map[]
    ensures db.configs == old(db.configs)
  {
    if !Has(member, ManageGuild) {
      return ResetDenied;
    }
    var res;
    if target.Some? {
      var had := db.GetPoints(target.value.id, readFails);
      res := db.ResetPoints(Some(target.value.id), writeFails);
      r := UserReset(had);
    } else {
      var all := db.GetAllPoints(readFails);
      if !readFails {
        ListingCount(all, db.points);
      }
      res := db.ResetPoints(None, writeFails);
      r := AllReset(|all|);
    }
    if res == WriteFailed {
      r := ResetFailed;
    }
  }

  // ---------------------------------------------------------------- /leaderboard

  const LeaderboardSize := 10

  /** 🥇, 🥈, 🥉, then `4.`, `5.`, ... */
  function Medal(i: nat): (s: string)
    ensures i < 3 ==> |s| == 1 && s == ["🥇", "🥈", "🥉"][i]
    ensures i >= 3 ==> |s| > 1 && IsDigit(s[0]) && s[|s| - 1] == '.'
    ensures i >= 3 ==> AllDigits(s[..|s| - 1]) && NumeralValue(s[..|s| - 1]) == i + 1
  {
    if i == 0 then "🥇" else if i == 1 then "🥈" else if i == 2 then "🥉"
    else
      var digits := DecimalString(i + 1);
      DecimalRoundTrip(i + 1);
      assert (digits + ".")[..|digits|] == digits;
      digits + "."
  }

  /** No two places share a label. */
  lemma MedalsDistinct(i: nat, j: nat)
    requires i != j
    ensures Medal(i) != Medal(j)
  {
    if i >= 3 && j >= 3 {
      var a, b := DecimalString(i + 1), DecimalString(j + 1);
      if a + "." == b + "." {
        assert |a| == |b|;
        assert a == (a + ".")[..|a|];
        assert b == (b + ".")[..|b|];
        DecimalStringInjective(i + 1, j + 1);
      }
    } else if i >= 3 || j >= 3 {
      var k := if i >= 3 then i else j;
      assert IsDigit(Medal(k)[0]);
    }
  }

  /** `**N** point` or `**N** points`. */
  function PointsValue(p: int): (s: string)
    ensures |s| > 0 && (s[|s| - 1] == 's' <==> p != 1)
    ensures var shown := "**" + IntString(p) + "**"; |shown| <= |s| && s[..|shown|] == shown
  {
    var shown := "**" + IntString(p) + "**";
    var unit := " point" + (if p == 1 then "" else "s");
    assert (shown + unit)[..|shown|] == shown;
    shown + unit
  }

  /** Different point counts are shown differently. */
  lemma PointsValueInjective(a: int, b: int)
    requires PointsValue(a) == PointsValue(b)
    ensures a == b
  {
    var s := PointsValue(a);
    var sa, sb := IntString(a), IntString(b);
    assert s == "**" + sa + "**" + " point" + (if a == 1 then "" else "s");
    assert s == "**" + sb + "**" + " point" + (if b == 1 then "" else "s");
    if |sa| == |sb| {
      assert sa == s[2..2 + |sa|] == sb;
      IntStringInjective(a, b);
    } else {
      assert false;
    }
  }

  /** The username `client.users.fetch` resolves to, or None when it throws. */
  function Username(usernames: map<string, string>, userId: string): Option<string> {
    if userId in usernames then Some(usernames[userId]) else None
  }

  /** A shown row: its place label, then the username or "Unknown User"; the
      row's points; inline. An unknown user gets a numbered place even in the
      top three. */
  function LeaderboardField(i: nat, row: PointsRow, username: Option<string>): (f: EmbedField)
    ensures f.value == PointsValue(row.points) && f.inline
    ensures username.Some? ==> (var place := Medal(i) + " "; |place| <= |f.name| && f.name[..|place|] == place)
    ensures username.None? ==> (var place := DecimalString(i + 1) + ". "; |place| <= |f.name| && f.name[..|place|] == place)
  {
    match username
    case Some(name) => EmbedField(Medal(i) + " " + name, PointsValue(row.points), true)
    case None => EmbedField(DecimalString(i + 1) + ". Unknown User", PointsValue(row.points), true)
  }

  /** The first `n` rows of the table by points: as many as it has, at most n,
      in descending order, each with its stored points, and none of them
      below anybody left out. */
  predicate IsTopListing(shown: seq<PointsRow>, m: map<string, int>, n: nat) {
    && |shown| == (if |m| < n then |m| else n)
    && (forall i, j | 0 <= i < j < |shown| :: shown[i].points >= shown[j].points)
    && (forall i, j | 0 <= i < j < |shown| :: shown[i].userId != shown[j].userId)
    && (forall i | 0 <= i < |shown| :: shown[i].userId in m && m[shown[i].userId] == shown[i].points)
    && (forall u, i | u in m && !MentionsUser(shown, u) && 0 <= i < |shown| :: shown[i].points >= m[u])
  }

  /** `allPoints.slice(0, 10)` of the descending listing is the top ten. */
  lemma SliceIsTopListing(rows: seq<PointsRow>, m: map<string, int>, n: nat)
    requires IsDescendingListing(rows, m)
    ensures IsTopListing(rows[..if |rows| < n then |rows| else n], m, n)
  {
    ListingCount(rows, m);
    TopRowsDominate(rows, m, if |rows| < n then |rows| else n);
  }

  /** The embed fields of the leaderboard, one per shown row. */
  method BuildLeaderboard(shown: seq<PointsRow>, usernames: map<string, string>) returns (fields: seq<EmbedField>)
    ensures |fields| == |shown|
    ensures forall i | 0 <= i < |shown| :: fields[i] == LeaderboardField(i, shown[i], Username(usernames, shown[i].userId))
  {
    fields := [];
    for i := 0 to |shown|
      invariant |fields| == i
      invariant forall k | 0 <= k < i :: fields[k] == LeaderboardField(k, shown[k], Username(usernames, shown[k].userId))
    {
      var row := shown[i];
      if row.userId in usernames {
        fields := fields + [EmbedField(Medal(i) + " " + usernames[row.userId], PointsValue(row.points), true)];
      } else {
        fields := fields + [EmbedField(DecimalString(i + 1) + ". Unknown User", PointsValue(row.points), true)];
      }
    }
  }

  datatype LeaderboardReply = NoPointsYet | Board(shown: seq<PointsRow>, fields: seq<EmbedField>)

  /** `handleLeaderboardCommand` */
  method HandleLeaderboard(db: Store, usernames: map<string, string>, readFails: bool) returns (reply: LeaderboardReply)
    ensures reply.NoPointsYet? <==> readFails || db.points == map[]
    ensures reply.Board? ==> IsTopListing(reply.shown, db.points, LeaderboardSize)
    ensures reply.Board? ==> |reply.fields| == |reply.shown|
    ensures reply.Board? ==> forall i | 0 <= i < |reply.shown| ::
      reply.fields[i] == LeaderboardField(i, reply.shown[i], Username(usernames, reply.shown[i].userId))
  {
    var all := db.GetAllPoints(readFails);
    var top := all[..if |all| < LeaderboardSize then |all| else LeaderboardSize];
    if !readFails {
      ListingEmptyIff(all, db.points);
      SliceIsTopListing(all, db.points, LeaderboardSize);
    }
    if |top| == 0 {
      return NoPointsYet;
    }
    var fields := BuildLeaderboard(top, usernames);
    reply := Board(top, fields);
  }
}
