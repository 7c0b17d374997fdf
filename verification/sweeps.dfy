/**
 * The scheduler's recurring sweeps over the posts table: publishing the due
 * posts, refreshing the engagement counters of recent publications, and
 * folding the day's publications into the analytics table. Each network
 * call is an oracle keyed by the row's id.
 */
module Sweeps {
  import opened Common
  import opened Platforms
  import opened Store

  /** What a sweep does to one row: nothing, the status statement, or the engagement statement. */
  datatype Change =
    | Keep
    | SetStatus(status: PostStatus, publishedTime: Option<int>, platformPostId: Option<string>, error: Option<string>)
    | SetCounters(metrics: Metrics)

  /** The row after `c`'s statement has run on it at time `now`. */
  function Applied(p: Post, c: Change, now: int): Post
  {
    match c
    case Keep => p
    case SetStatus(st, pt, pid, e) =>
      p.(status := st, publishedTime := pt, platformPostId := pid, errorMessage := e, updatedAt := now)
    case SetCounters(m) =>
      p.(likes := m.likes, comments := m.comments, shares := m.shares, views := m.views, updatedAt := now)
  }

  /** A statement writes fixed values: running it twice is running it once, and a row keeps its id. */
  lemma AppliedIdempotent(p: Post, c: Change, now: int)
    ensures Applied(Applied(p, c, now), c, now) == Applied(p, c, now)
    ensures Applied(p, c, now).id == p.id
  {
  }

  /** Running `c`'s statement against the row with id `id`. */
  function Execute(t: PostTable, id: nat, c: Change, now: int): (r: PostTable)
    requires ValidPosts(t)
    ensures ValidPosts(r) && |r.rows| == |t.rows| && r.nextId == t.nextId
    ensures forall i :: 0 <= i < |t.rows| ==>
      r.rows[i] == if t.rows[i].id == id then Applied(t.rows[i], c, now) else t.rows[i]
  {
    match c
    case Keep => t
    case SetStatus(st, pt, pid, e) => UpdatePostStatus(t, id, st, pt, pid, e, now)
    case SetCounters(m) => UpdatePostEngagement(t, id, m.likes, m.comments, m.shares, m.views, now)
  }

  /** Rows with equal ids are equal: the batch was read from a table with unique ids. */
  predicate IdsDetermineRows(batch: seq<Post>)
  {
    forall b1, b2 :: b1 in batch && b2 in batch && b1.id == b2.id ==> b1 == b2
  }

  /**
   * A sweep: for each row of `batch` in turn, the statement `decide` picks
   * for that row (as read when the batch was selected) runs against the
   * table. Each row of the table ends up with its own statement applied,
   * whatever the order of the batch; rows outside the batch are untouched.
   */
  function Sweep(t: PostTable, batch: seq<Post>, decide: Post -> Change, now: int): (r: PostTable)
    requires ValidPosts(t) && IdsDetermineRows(batch)
    ensures ValidPosts(r) && |r.rows| == |t.rows| && r.nextId == t.nextId
    ensures forall i, b :: 0 <= i < |t.rows| && b in batch && b.id == t.rows[i].id ==>
      r.rows[i] == Applied(t.rows[i], decide(b), now)
    ensures forall i :: 0 <= i < |t.rows| && (forall b :: b in batch ==> b.id != t.rows[i].id) ==>
      r.rows[i] == t.rows[i]
    decreases |batch|
  {
    if |batch| == 0 then t
    else
      var t1 := Execute(t, batch[0].id, decide(batch[0]), now);
      var r := Sweep(t1, batch[1..], decide, now);
      SweepStep(t, t1, r, batch, decide, now);
      r
  }

  lemma SweepStep(t: PostTable, t1: PostTable, r: PostTable, batch: seq<Post>, decide: Post -> Change, now: int)
    requires ValidPosts(t) && IdsDetermineRows(batch) && |batch| > 0
    requires t1 == Execute(t, batch[0].id, decide(batch[0]), now)
    requires |r.rows| == |t1.rows|
    requires forall i, b :: 0 <= i < |t1.rows| && b in batch[1..] && b.id == t1.rows[i].id ==>
      r.rows[i] == Applied(t1.rows[i], decide(b), now)
    requires forall i :: 0 <= i < |t1.rows| && (forall b :: b in batch[1..] ==> b.id != t1.rows[i].id) ==>
      r.rows[i] == t1.rows[i]
    ensures forall i, b :: 0 <= i < |t.rows| && b in batch && b.id == t.rows[i].id ==>
      r.rows[i] == Applied(t.rows[i], decide(b), now)
    ensures forall i :: 0 <= i < |t.rows| && (forall b :: b in batch ==> b.id != t.rows[i].id) ==>
      r.rows[i] == t.rows[i]
  {
    forall i, b | 0 <= i < |t.rows| && b in batch && b.id == t.rows[i].id
      ensures r.rows[i] == Applied(t.rows[i], decide(b), now)
    {
      AppliedIdempotent(t.rows[i], decide(b), now);
      assert t1.rows[i].id == t.rows[i].id;
      if exists b' :: b' in batch[1..] && b'.id == t1.rows[i].id {
        var b' :| b' in batch[1..] && b'.id == t1.rows[i].id;
        assert b' == b;
        if batch[0].id == t.rows[i].id {
          assert batch[0] == b;
        }
      } else {
        assert b !in batch[1..];
        assert b == batch[0];
      }
    }
    forall i | 0 <= i < |t.rows| && (forall b :: b in batch ==> b.id != t.rows[i].id)
      ensures r.rows[i] == t.rows[i]
    {
      assert batch[0] in batch;
      assert forall b :: b in batch[1..] ==> b in batch;
    }
  }

  /** In a table with unique ids, rows with equal ids are the same row. */
  lemma TableIdsDetermineRows(t: PostTable, batch: seq<Post>)
    requires ValidPosts(t)
    requires forall b :: b in batch ==> b in t.rows
    ensures IdsDetermineRows(batch)
  {
    forall b1, b2 | b1 in batch && b2 in batch && b1.id == b2.id
      ensures b1 == b2
    {
      var i :| 0 <= i < |t.rows| && t.rows[i] == b1;
      var j :| 0 <= j < |t.rows| && t.rows[j] == b2;
      assert i == j;
    }
  }

  // ------------------------------------------------------------ publishing

  /**
   * `publishPost`: the status statement one due row gets. The post is sent
   * without media; `network` is what the connector's network call returned.
   */
  function PublishChange(p: Post, reg: Registry, network: NetworkPost, now: int): (c: Change)
    ensures c.SetStatus? && (c.status == Published || c.status == Failed)
    ensures c.status == Published <==>
      && GetPlatform(reg, p.platform).Some? && IsAuth(GetPlatform(reg, p.platform).value)
      && p.platform != "instagram" && network.Sent?
    ensures c.status == Published ==>
      c.publishedTime == Some(now) && c.platformPostId == Some(network.postId) && c.error.None?
    ensures c.status == Failed ==> c.publishedTime.None? && c.platformPostId.None? && c.error.Some?
    ensures GetPlatform(reg, p.platform).None? ==> c.error == Some("Platform not available")
    ensures GetPlatform(reg, p.platform).Some? && !IsAuth(GetPlatform(reg, p.platform).value) ==>
      c.error == Some("Platform not authenticated")
    ensures GetPlatform(reg, p.platform).Some? && IsAuth(GetPlatform(reg, p.platform).value) ==>
      if p.platform == "instagram" then c.error == Some(InstagramNeedsMedia)
      else if network.Refused? then c.error == Some(if network.error == "" then "Unknown error" else network.error)
      else c.status == Published
  {
    match GetPlatform(reg, p.platform)
    case None => SetStatus(Failed, None, None, Some("Platform not available"))
    case Some(a) =>
      if !IsAuth(a) then SetStatus(Failed, None, None, Some("Platform not authenticated"))
      else
        var result := AdapterPost(a, [], network);
        if result.success then SetStatus(Published, Some(now), result.postId, None)
        else SetStatus(Failed, None, None, Some(result.error.GetOr("Unknown error")))
  }

  /**
   * `publishScheduledPosts`: every due row, earliest first, gets its
   * status statement; `calls` gives the network's answer per row id.
   */
  function PublishScheduledPosts(t: PostTable, reg: Registry, calls: nat -> NetworkPost, now: int): (r: PostTable)
    requires ValidPosts(t)
    ensures ValidPosts(r) && |r.rows| == |t.rows| && r.nextId == t.nextId
    ensures forall i :: 0 <= i < |t.rows| && IsDue(t.rows[i], now) ==>
      r.rows[i] == Applied(t.rows[i], PublishChange(t.rows[i], reg, calls(t.rows[i].id), now), now)
    ensures forall i :: 0 <= i < |t.rows| && !IsDue(t.rows[i], now) ==> r.rows[i] == t.rows[i]
  {
    var batch := DuePosts(t, now);
    var decide := (p: Post) => PublishChange(p, reg, calls(p.id), now);
    TableIdsDetermineRows(t, batch);
    var r := Sweep(t, batch, decide, now);
    forall i | 0 <= i < |t.rows| && !IsDue(t.rows[i], now)
      ensures r.rows[i] == t.rows[i]
    {
      forall b | b in batch
        ensures b.id != t.rows[i].id
      {
        var j :| 0 <= j < |t.rows| && t.rows[j] == b;
        assert j != i;
      }
    }
    forall i | 0 <= i < |t.rows| && IsDue(t.rows[i], now)
      ensures r.rows[i] == Applied(t.rows[i], decide(t.rows[i]), now)
    {
      assert t.rows[i] in batch;
    }
    r
  }

  /** After a publishing sweep nothing is due any more: every due row is now published or failed. */
  lemma PublishLeavesNothingDue(t: PostTable, reg: Registry, calls: nat -> NetworkPost, now: int)
    requires ValidPosts(t)
    ensures var r := PublishScheduledPosts(t, reg, calls, now);
      forall i :: 0 <= i < |r.rows| ==> !IsDue(r.rows[i], now)
    ensures var r := PublishScheduledPosts(t, reg, calls, now);
      forall i :: 0 <= i < |t.rows| && IsDue(t.rows[i], now) ==>
        (r.rows[i].status == Published || r.rows[i].status == Failed) && r.rows[i].updatedAt == now
  {
    var r := PublishScheduledPosts(t, reg, calls, now);
    forall i | 0 <= i < |t.rows|
      ensures !IsDue(r.rows[i], now)
      ensures IsDue(t.rows[i], now) ==>
        (r.rows[i].status == Published || r.rows[i].status == Failed) && r.rows[i].updatedAt == now
    {
      if IsDue(t.rows[i], now) {
        var c := PublishChange(t.rows[i], reg, calls(t.rows[i].id), now);
        assert r.rows[i] == Applied(t.rows[i], c, now);
      }
    }
  }

  /** A due Instagram post never gets published: the scheduler sends no media. */
  lemma InstagramNeverPublished(t: PostTable, reg: Registry, calls: nat -> NetworkPost, now: int, i: nat)
    requires ValidPosts(t) && i < |t.rows| && IsDue(t.rows[i], now) && t.rows[i].platform == "instagram"
    ensures var r := PublishScheduledPosts(t, reg, calls, now).rows[i];
      r.status == Failed && r.errorMessage.Some?
      && r.errorMessage.value in {"Platform not available", "Platform not authenticated", InstagramNeedsMedia}
  {
  }

  // ------------------------------------------------------------ engagement

  /** How far back publications are refreshed: seven days. */
  const EngagementWindow: int := 7 * MinutesPerDay

  /** A row whose counters the engagement sweep refreshes: published within the window, with an external id. */
  predicate EngagementCandidate(p: Post, now: int)
  {
    && p.status == Published && p.publishedTime.Some? && p.publishedTime.value > now - EngagementWindow
    && p.platformPostId.Some?
  }

  /** The candidate rows, in table order. */
  function Candidates(rows: seq<Post>, now: int): (r: seq<Post>)
    ensures forall p :: p in r <==> p in rows && EngagementCandidate(p, now)
  {
    if |rows| == 0 then []
    else
      var rest := Candidates(rows[..|rows| - 1], now);
      var p := rows[|rows| - 1];
      assert rows == rows[..|rows| - 1] + [p];
      if EngagementCandidate(p, now) then rest + [p] else rest
  }

  /**
   * What the engagement sweep does to one candidate: nothing when its
   * connector is missing or not authenticated or returns no metrics,
   * otherwise the engagement statement with the metrics returned.
   */
  function EngagementChange(p: Post, reg: Registry, network: Option<Metrics>): (c: Change)
    ensures c.Keep? || c.SetCounters?
    ensures c.SetCounters? <==>
      GetPlatform(reg, p.platform).Some? && IsAuth(GetPlatform(reg, p.platform).value) && network.Some?
    ensures c.SetCounters? ==> c.metrics == network.value
  {
    match GetPlatform(reg, p.platform)
    case None => Keep
    case Some(a) =>
      if !IsAuth(a) then Keep
      else match AdapterEngagement(a, network)
        case None => Keep
        case Some(m) => SetCounters(m)
  }

  /** `updateEngagementMetrics`; `metrics` gives the network's answer per row id. */
  function UpdateEngagementMetrics(t: PostTable, reg: Registry, metrics: nat -> Option<Metrics>, now: int)
    : (r: PostTable)
    requires ValidPosts(t)
    ensures ValidPosts(r) && |r.rows| == |t.rows| && r.nextId == t.nextId
    ensures forall i :: 0 <= i < |t.rows| && EngagementCandidate(t.rows[i], now) ==>
      r.rows[i] == Applied(t.rows[i], EngagementChange(t.rows[i], reg, metrics(t.rows[i].id)), now)
    ensures forall i :: 0 <= i < |t.rows| && !EngagementCandidate(t.rows[i], now) ==> r.rows[i] == t.rows[i]
  {
    var batch := Candidates(t.rows, now);
    var decide := (p: Post) => EngagementChange(p, reg, metrics(p.id));
    TableIdsDetermineRows(t, batch);
    var r := Sweep(t, batch, decide, now);
    forall i | 0 <= i < |t.rows| && !EngagementCandidate(t.rows[i], now)
      ensures r.rows[i] == t.rows[i]
    {
      forall b | b in batch
        ensures b.id != t.rows[i].id
      {
        var j :| 0 <= j < |t.rows| && t.rows[j] == b;
        assert j != i;
      }
    }
    forall i | 0 <= i < |t.rows| && EngagementCandidate(t.rows[i], now)
      ensures r.rows[i] == Applied(t.rows[i], decide(t.rows[i]), now)
    {
      assert t.rows[i] in batch;
    }
    r
  }

  /**
   * The engagement sweep changes counters only: every row keeps its
   * content, platform, status, times and external id, and a candidate whose
   * connector answered carries the answered metrics.
   */
  lemma EngagementTouchesCountersOnly(t: PostTable, reg: Registry, metrics: nat -> Option<Metrics>, now: int, i: nat)
    requires ValidPosts(t) && i < |t.rows|
    ensures var r := UpdateEngagementMetrics(t, reg, metrics, now).rows[i];
      && r.id == t.rows[i].id && r.content == t.rows[i].content && r.platform == t.rows[i].platform
      && r.status == t.rows[i].status && r.scheduledTime == t.rows[i].scheduledTime
      && r.publishedTime == t.rows[i].publishedTime && r.platformPostId == t.rows[i].platformPostId
      && r.errorMessage == t.rows[i].errorMessage
    ensures var r := UpdateEngagementMetrics(t, reg, metrics, now).rows[i];
      var a := GetPlatform(reg, t.rows[i].platform);
      EngagementCandidate(t.rows[i], now) && a.Some? && IsAuth(a.value) && metrics(t.rows[i].id).Some? ==>
        Metrics(r.likes, r.comments, r.shares, r.views) == metrics(t.rows[i].id).value
  {
    var p := t.rows[i];
    if EngagementCandidate(p, now) {
      var c := EngagementChange(p, reg, metrics(p.id));
      assert UpdateEngagementMetrics(t, reg, metrics, now).rows[i] == Applied(p, c, now);
      if c.SetCounters? {
        assert Applied(p, c, now) == p.(likes := c.metrics.likes, comments := c.metrics.comments,
          shares := c.metrics.shares, views := c.metrics.views, updatedAt := now);
      }
    }
  }

  // ------------------------------------------------------------- analytics

  /** The platforms the daily aggregation visits, in order. */
  const AnalyticsPlatforms: seq<string> := ["twitter", "linkedin", "facebook", "reddit", "instagram"]

  /** A row published on `platform` on `day`. */
  predicate PublishedOn(p: Post, platform: string, day: int)
  {
    && p.platform == platform && p.status == Published
    && p.publishedTime.Some? && DayOf(p.publishedTime.value) == day
  }

  /** The count and the counter sums of the rows published on `platform` on `day`. */
  function DayTotals(rows: seq<Post>, platform: string, day: int): (s: DailyTotals)
    ensures 0 <= s.posts <= |rows|
    ensures s.posts == |set i | 0 <= i < |rows| && PublishedOn(rows[i], platform, day)|
    ensures s.posts == 0 ==> s == DailyTotals(0, 0, 0, 0, 0)
  {
    if |rows| == 0 then DailyTotals(0, 0, 0, 0, 0)
    else
      var n := |rows| - 1;
      var rest := DayTotals(rows[..n], platform, day);
      var p := rows[n];
      var before := set i | 0 <= i < n && PublishedOn(rows[..n][i], platform, day);
      var after := set i | 0 <= i < |rows| && PublishedOn(rows[i], platform, day);
      if PublishedOn(p, platform, day) then
        assert after == before + {n};
        DailyTotals(rest.posts + 1, rest.likes + p.likes, rest.comments + p.comments,
                    rest.shares + p.shares, rest.views + p.views)
      else
        assert after == before;
        rest
  }

  /** The analytics row for (`day`, `platform`), if any. */
  function RowFor(t: seq<AnalyticsRow>, day: int, platform: string): Option<AnalyticsRow>
  {
    match FindDay(t, day, platform)
    case Some(i) => Some(t[i])
    case None => None
  }

  /** What one aggregation makes of the row for (`day`, `platform`) given that day's totals. */
  function Aggregated(row: Option<AnalyticsRow>, day: int, platform: string, s: DailyTotals): Option<AnalyticsRow>
  {
    if s.posts <= 0 then row
    else match row
      case None => Some(AnalyticsRow(day, platform, s.posts, s.likes, s.comments, s.shares, s.views, 0, 0))
      case Some(x) => Some(AddTotals(x, s))
  }

  /** The upsert sets the row of its own key and leaves every other key's row as it was. */
  lemma UpsertRowFor(t: seq<AnalyticsRow>, date: int, platform: string, s: DailyTotals, day: int, q: string)
    requires UniqueDays(t)
    ensures var r := UpsertAnalytics(t, date, platform, s);
      RowFor(r, day, q) == if (day, q) == (date, platform)
        then Some(if RowFor(t, date, platform).None?
                  then AnalyticsRow(date, platform, s.posts, s.likes, s.comments, s.shares, s.views, 0, 0)
                  else AddTotals(RowFor(t, date, platform).value, s))
        else RowFor(t, day, q)
  {
    var r := UpsertAnalytics(t, date, platform, s);
    var k := FindDay(r, date, platform).value;
    FindDayUnique(r, k);
    if (day, q) == (date, platform) {
      if FindDay(t, date, platform).Some? {
        FindDayUnique(r, FindDay(t, date, platform).value);
      } else {
        FindDayUnique(r, |t|);
      }
    } else {
      if FindDay(t, day, q).Some? {
        var i := FindDay(t, day, q).value;
        assert r[i] == t[i];
        FindDayUnique(r, i);
      }
    }
  }

  /**
   * `r` is `a` after aggregating `day` over `platforms`: each listed
   * platform's row for `day` is its aggregate, every other row is unchanged.
   */
  ghost predicate AggregatedFrom(r: seq<AnalyticsRow>, a: seq<AnalyticsRow>, rows: seq<Post>, day: int, platforms: seq<string>)
  {
    && (forall k :: 0 <= k < |platforms| ==>
          RowFor(r, day, platforms[k])
            == Aggregated(RowFor(a, day, platforms[k]), day, platforms[k], DayTotals(rows, platforms[k], day)))
    && (forall d, q :: d != day || q !in platforms ==> RowFor(r, d, q) == RowFor(a, d, q))
  }

  /** One platform's step of the aggregation loop. */
  function AggregateOne(a: seq<AnalyticsRow>, rows: seq<Post>, day: int, p: string): (r: seq<AnalyticsRow>)
    requires UniqueDays(a)
    ensures UniqueDays(r)
    ensures AggregatedFrom(r, a, rows, day, [p])
  {
    var s := DayTotals(rows, p, day);
    var r := if s.posts > 0 then UpsertAnalytics(a, day, p, s) else a;
    forall d, q
      ensures RowFor(r, d, q) == if (d, q) == (day, p) then Aggregated(RowFor(a, day, p), day, p, s)
                                 else RowFor(a, d, q)
    {
      if s.posts > 0 {
        UpsertRowFor(a, day, p, s, d, q);
      }
    }
    r
  }

  /**
   * The aggregation loop over `platforms`: each platform with a publication
   * on `day` has that day's totals upserted into its row.
   */
  function AggregateOver(a: seq<AnalyticsRow>, rows: seq<Post>, day: int, platforms: seq<string>)
    : (r: seq<AnalyticsRow>)
    requires UniqueDays(a) && Distinct(platforms)
    ensures UniqueDays(r)
    ensures AggregatedFrom(r, a, rows, day, platforms)
    decreases |platforms|
  {
    if |platforms| == 0 then a
    else
      var a1 := AggregateOne(a, rows, day, platforms[0]);
      var r := AggregateOver(a1, rows, day, platforms[1..]);
      AggregateChain(r, a1, a, rows, day, platforms);
      r
  }

  /** Aggregating the first platform and then the rest aggregates them all. */
  lemma AggregateChain(r: seq<AnalyticsRow>, a1: seq<AnalyticsRow>, a: seq<AnalyticsRow>, rows: seq<Post>,
                       day: int, platforms: seq<string>)
    requires |platforms| > 0 && Distinct(platforms)
    requires AggregatedFrom(a1, a, rows, day, [platforms[0]])
    requires AggregatedFrom(r, a1, rows, day, platforms[1..])
    ensures AggregatedFrom(r, a, rows, day, platforms)
  {
    var p := platforms[0];
    assert forall k :: 0 < k < |platforms| ==> platforms[k] == platforms[1..][k - 1] && platforms[k] != p;
    assert p !in platforms[1..];
    forall k | 0 <= k < |platforms|
      ensures RowFor(r, day, platforms[k])
        == Aggregated(RowFor(a, day, platforms[k]), day, platforms[k], DayTotals(rows, platforms[k], day))
    {
      if k == 0 {
        assert [p][0] == p;
      } else {
        assert platforms[k] !in [p];
      }
    }
    forall d, q | d != day || q !in platforms
      ensures RowFor(r, d, q) == RowFor(a, d, q)
    {
      assert q !in platforms ==> q !in platforms[1..] && q !in [p];
    }
  }

  /** `aggregateDailyAnalytics` for `day`. */
  function AggregateDailyAnalytics(a: seq<AnalyticsRow>, rows: seq<Post>, day: int): (r: seq<AnalyticsRow>)
    requires UniqueDays(a)
    ensures UniqueDays(r)
    ensures AggregatedFrom(r, a, rows, day, AnalyticsPlatforms)
  {
    AggregateOver(a, rows, day, AnalyticsPlatforms)
  }

  /**
   * A platform without a publication that day keeps its row; one with
   * publications gets exactly that day's count added, so aggregating the
   * same day twice counts its posts twice.
   */
  lemma AggregationCounts(a: seq<AnalyticsRow>, rows: seq<Post>, day: int, k: nat)
    requires UniqueDays(a) && k < |AnalyticsPlatforms|
    ensures var p := AnalyticsPlatforms[k];
      var n := |set i | 0 <= i < |rows| && PublishedOn(rows[i], p, day)|;
      var before := RowFor(a, day, p);
      var after := RowFor(AggregateDailyAnalytics(a, rows, day), day, p);
      && (n == 0 ==> after == before)
      && (n > 0 ==> after.Some? && after.value.totalPosts == (if before.Some? then before.value.totalPosts else 0) + n)
  {
    var p := AnalyticsPlatforms[k];
    var r := AggregateDailyAnalytics(a, rows, day);
    assert RowFor(r, day, p) == Aggregated(RowFor(a, day, p), day, p, DayTotals(rows, p, day));
  }
}
