/** database.js: the two persistent tables, `points` and
    `marketplace_config`, as two maps owned by one store object. A failing
    backend call is an input (`readFails` / `writeFails`): reads then degrade
    to their defaults and writes report the failure to the caller. */
module Database {
  import opened Wrappers

  /** A row of `points`. */
  datatype PointsRow = PointsRow(userId: string, points: int)

  /** A row of `marketplace_config`. */
  datatype MarketplaceConfig = MarketplaceConfig(guildId: string, marketplaceChannelId: string, submissionsChannelId: string)

  /** Outcome of a write: the source rethrows the backend error. */
  datatype WriteResult = Written | WriteFailed

  // ---------------------------------------------------------------- points

  /** What `getPoints` reads: the stored value, or 0 for a user without a row. */
  function Lookup(m: map<string, int>, u: string): int {
    if u in m then m[u] else 0
  }

  /** `INSERT ... ON CONFLICT(user_id) DO UPDATE SET points = excluded.points` */
  function Upsert(m: map<string, int>, u: string, p: int): (r: map<string, int>)
    ensures Lookup(r, u) == p
    ensures forall v :: v != u ==> Lookup(r, v) == Lookup(m, v)
    ensures r.Keys == m.Keys + {u}
  {
    m[u := p]
  }

  /** `UPDATE points SET points = 0 WHERE user_id = ?` */
  function ResetOne(m: map<string, int>, u: string): (r: map<string, int>)
    ensures Lookup(r, u) == 0
    ensures forall v :: v != u ==> Lookup(r, v) == Lookup(m, v)
    ensures r.Keys == m.Keys
  {
    if u in m then m[u := 0] else m
  }

  /** JavaScript truthiness of the optional `userId` argument of `resetPoints`. */
  predicate Truthy(u: Option<string>) {
    u.Some? && u.value != ""
  }

  /** `resetPoints(userId)`: one row zeroed when userId is truthy, otherwise `DELETE FROM points`. */
  function ResetTarget(m: map<string, int>, u: Option<string>): (r: map<string, int>)
    ensures Truthy(u) ==> Lookup(r, u.value) == 0 && r.Keys == m.Keys
    ensures Truthy(u) ==> forall v :: v != u.value ==> Lookup(r, v) == Lookup(m, v)
    ensures !Truthy(u) ==> r == map[] && forall v :: Lookup(r, v) == 0
  {
    if Truthy(u) then ResetOne(m, u.value) else map[]
  }

  predicate MentionsUser(rows: seq<PointsRow>, u: string) {
    exists i | 0 <= i < |rows| :: rows[i].userId == u
  }

  /** `SELECT user_id, points FROM points ORDER BY points DESC`: every row of
      the table exactly once, points non-increasing (ties in any order). */
  predicate IsDescendingListing(rows: seq<PointsRow>, m: map<string, int>) {
    && (forall i, j | 0 <= i < j < |rows| :: rows[i].points >= rows[j].points)
    && (forall i, j | 0 <= i < j < |rows| :: rows[i].userId != rows[j].userId)
    && (forall i | 0 <= i < |rows| :: rows[i].userId in m && m[rows[i].userId] == rows[i].points)
    && (forall u | u in m :: MentionsUser(rows, u))
  }

  /** A non-empty table has a row holding the most points. */
  lemma {:induction false} MaxRowExists(m: map<string, int>)
    requires m != map[]
    ensures exists u :: u in m && forall v | v in m :: m[v] <= m[u]
    decreases |m|
  {
    var k :| k in m;
    var rest := m - {k};
    if !(forall v | v in m :: m[v] <= m[k]) {
      var w :| w in m && m[w] > m[k];
      assert w in rest;
      assert |rest| < |m|;
      MaxRowExists(rest);
      var u :| u in rest && forall v | v in rest :: rest[v] <= rest[u];
      var best := if m[k] <= m[u] then u else k;
      forall v | v in m
        ensures m[v] <= m[best]
      {
        if v != k {
          assert v in rest && rest[v] == m[v];
        }
      }
    }
  }

  /** The loop state of `GetAllPoints`: `rows` lists, by points descending,
      every row of m outside `rest`, and no row of `rest` beats a listed one. */
  ghost predicate ListingProgress(rows: seq<PointsRow>, rest: map<string, int>, m: map<string, int>) {
    && (forall u | u in rest :: u in m && m[u] == rest[u])
    && (forall i, j | 0 <= i < j < |rows| :: rows[i].points >= rows[j].points)
    && (forall i, j | 0 <= i < j < |rows| :: rows[i].userId != rows[j].userId)
    && (forall i | 0 <= i < |rows| :: rows[i].userId in m && m[rows[i].userId] == rows[i].points)
    && (forall i | 0 <= i < |rows| :: rows[i].userId !in rest)
    && (forall i, u | 0 <= i < |rows| && u in rest :: rest[u] <= rows[i].points)
    && (forall u | u in m && u !in rest :: MentionsUser(rows, u))
  }

  /** Moving a row holding the most points from `rest` to the end of `rows` keeps the loop state. */
  lemma ListingStep(rows: seq<PointsRow>, rest: map<string, int>, m: map<string, int>, u: string)
    requires ListingProgress(rows, rest, m)
    requires u in rest && forall v | v in rest :: rest[v] <= rest[u]
    ensures ListingProgress(rows + [PointsRow(u, rest[u])], rest - {u}, m)
  {
    var rows' := rows + [PointsRow(u, rest[u])];
    forall v | v in m && v !in rest - {u}
      ensures MentionsUser(rows', v)
    {
      if v == u {
        assert rows'[|rows|].userId == v;
      } else {
        var i :| 0 <= i < |rows| && rows[i].userId == v;
        assert rows'[i].userId == v;
      }
    }
  }

  /** The listing is empty exactly when the table is. */
  lemma ListingEmptyIff(rows: seq<PointsRow>, m: map<string, int>)
    requires IsDescendingListing(rows, m)
    ensures rows == [] <==> m == map[]
  {
    if rows != [] {
      assert rows[0].userId in m;
    }
    if m != map[] {
      var u :| u in m;
      assert MentionsUser(rows, u);
    }
  }

  /** The listing has one row per user of the table. */
  lemma {:induction false} ListingCount(rows: seq<PointsRow>, m: map<string, int>)
    requires IsDescendingListing(rows, m)
    ensures |rows| == |m|
    decreases |rows|
  {
    if rows == [] {
      ListingEmptyIff(rows, m);
    } else {
      var u := rows[0].userId;
      var m' := m - {u};
      var rows' := rows[1..];
      forall v | v in m'
        ensures MentionsUser(rows', v)
      {
        var i :| 0 <= i < |rows| && rows[i].userId == v;
        assert i != 0;
        assert rows'[i - 1].userId == v;
      }
      assert forall i | 0 <= i < |rows'| :: rows'[i] == rows[i + 1];
      ListingCount(rows', m');
    }
  }

  /** The first k rows of the listing hold at least as many points as any user they leave out. */
  lemma TopRowsDominate(rows: seq<PointsRow>, m: map<string, int>, k: nat)
    requires IsDescendingListing(rows, m) && k <= |rows|
    ensures forall u, i | u in m && !MentionsUser(rows[..k], u) && 0 <= i < k :: rows[i].points >= m[u]
  {
    forall u, i | u in m && !MentionsUser(rows[..k], u) && 0 <= i < k
      ensures rows[i].points >= m[u]
    {
      forall j | 0 <= j < k
        ensures rows[j].userId != u
      {
        assert rows[..k][j] == rows[j];
      }
      var j :| 0 <= j < |rows| && rows[j].userId == u;
    }
  }

  // ---------------------------------------------------------------- marketplace_config

  /** The primary key: the row stored under g describes guild g. */
  predicate ConfigsKeyed(c: map<string, MarketplaceConfig>) {
    forall g | g in c :: c[g].guildId == g
  }

  /** `SELECT * FROM marketplace_config`: every row exactly once, in no particular order. */
  predicate IsConfigListing(rows: seq<MarketplaceConfig>, c: map<string, MarketplaceConfig>) {
    && (forall i | 0 <= i < |rows| :: rows[i].guildId in c && c[rows[i].guildId] == rows[i])
    && (forall i, j | 0 <= i < j < |rows| :: rows[i].guildId != rows[j].guildId)
    && (forall g | g in c :: exists i | 0 <= i < |rows| :: rows[i].guildId == g)
  }

  class Store {
    var points: map<string, int>
    var configs: map<string, MarketplaceConfig>

    ghost predicate Valid()
      reads this
    {
      ConfigsKeyed(configs)
    }

    /** Freshly created tables (`CREATE TABLE IF NOT EXISTS` on an empty database). */
    constructor ()
      ensures Valid() && points == map[] && configs == map[]
    {
      points := map[];
      configs := map[];
    }

    /** `getPoints`: 0 when the user has no row, and 0 when the read fails. */
    method GetPoints(userId: string, readFails: bool) returns (p: int)
      ensures readFails ==> p == 0
      ensures !readFails && userId !in points ==> p == 0
      ensures !readFails && userId in points ==> p == points[userId]
    {
      if readFails {
        p := 0;
      } else if userId in points {
        p := points[userId];
      } else {
        p := 0;
      }
    }

    /** `setPoints`: an upsert; a failed write changes nothing and is reported. */
    method SetPoints(userId: string, p: int, writeFails: bool) returns (res: WriteResult)
      modifies this
      ensures res == (if writeFails then WriteFailed else Written)
      ensures points == (if writeFails then old(points) else Upsert(old(points), userId, p))
      ensures configs == old(configs)
    {
      if writeFails {
        res := WriteFailed;
      } else {
        points := points[userId := p];
        res := Written;
      }
    }

    /** `getAllPoints`: every row, by points descending; `[]` when the read fails. */
    method GetAllPoints(readFails: bool) returns (rows: seq<PointsRow>)
      ensures readFails ==> rows == []
      ensures !readFails ==> IsDescendingListing(rows, points)
    {
      rows := [];
      if readFails {
        return;
      }
      var rest := points;
      while rest != map[]
        invariant ListingProgress(rows, rest, points)
        decreases |rest|
      {
        MaxRowExists(rest);
        var u :| u in rest && forall v | v in rest :: rest[v] <= rest[u];
        ListingStep(rows, rest, points, u);
        rows := rows + [PointsRow(u, rest[u])];
        rest := rest - {u};
      }
    }

    /** `resetPoints(userId = null)` */
    method ResetPoints(userId: Option<string>, writeFails: bool) returns (res: WriteResult)
      modifies this
      ensures res == (if writeFails then WriteFailed else Written)
      ensures points == (if writeFails then old(points) else ResetTarget(old(points), userId))
      ensures configs == old(configs)
    {
      if writeFails {
        res := WriteFailed;
        return;
      }
      if Truthy(userId) {
        if userId.value in points {
          points := points[userId.value := 0];
        }
      } else {
        points := map[];
      }
      res := Written;
    }

    /** `getMarketplaceConfig`: the guild's row, or null when absent or when the read fails. */
    method GetMarketplaceConfig(guildId: string, readFails: bool) returns (c: Option<MarketplaceConfig>)
      requires Valid()
      ensures c.Some? <==> !readFails && guildId in configs
      ensures c.Some? ==> c.value == configs[guildId] && c.value.guildId == guildId
    {
      if !readFails && guildId in configs {
        c := Some(configs[guildId]);
      } else {
        c := None;
      }
    }

    /** `setMarketplaceConfig`: overwrites both channel ids of the guild, no merge. */
    method SetMarketplaceConfig(guildId: string, marketplaceChannelId: string, submissionsChannelId: string, writeFails: bool)
      returns (res: WriteResult)
      requires Valid()
      modifies this
      ensures Valid()
      ensures res == (if writeFails then WriteFailed else Written)
      ensures configs == (if writeFails then old(configs)
                          else old(configs)[guildId := MarketplaceConfig(guildId, marketplaceChannelId, submissionsChannelId)])
      ensures points == old(points)
    {
      if writeFails {
        res := WriteFailed;
      } else {
        configs := configs[guildId := MarketplaceConfig(guildId, marketplaceChannelId, submissionsChannelId)];
        res := Written;
      }
    }

    /** `getAllMarketplaceConfigs`: every configured guild once; `[]` when the read fails. */
    method GetAllMarketplaceConfigs(readFails: bool) returns (rows: seq<MarketplaceConfig>)
      requires Valid()
      ensures readFails ==> rows == []
      ensures !readFails ==> IsConfigListing(rows, configs)
    {
      rows := [];
      if readFails {
        return;
      }
      var rest := configs.Keys;
      while rest != {}
        invariant rest <= configs.Keys
        invariant forall i | 0 <= i < |rows| :: rows[i].guildId in configs && configs[rows[i].guildId] == rows[i]
        invariant forall i | 0 <= i < |rows| :: rows[i].guildId !in rest
        invariant forall i, j | 0 <= i < j < |rows| :: rows[i].guildId != rows[j].guildId
        invariant forall g | g in configs && g !in rest :: exists i | 0 <= i < |rows| :: rows[i].guildId == g
        decreases rest
      {
        var g :| g in rest;
        ghost var before := rows;
        rows := rows + [configs[g]];
        assert rows[|rows| - 1].guildId == g;
        assert forall h | h in configs && h !in rest :: exists i | 0 <= i < |rows| :: rows[i].guildId == h by {
          forall h | h in configs && h !in rest
            ensures exists i | 0 <= i < |rows| :: rows[i].guildId == h
          {
            var i :| 0 <= i < |before| && before[i].guildId == h;
            assert rows[i].guildId == h;
          }
        }
        rest := rest - {g};
      }
    }
  }
}
