/**
 * The tables the program keeps and the statements that read and write
 * them, as pure operations on in-memory tables: scheduled posts, daily
 * analytics and leads. `CURRENT_TIMESTAMP` and `datetime('now')` are the
 * parameter `now`; a timestamp is a whole number of minutes.
 */
module Store {
  import opened Common
  import opened Sorting

  /** The first index at or after `from` where `hits` is true. */
  function IndexWhere(hits: seq<bool>, from: nat): (r: Option<nat>)
    ensures r.Some? ==> from <= r.value < |hits| && hits[r.value]
    ensures r.None? ==> forall i :: from <= i < |hits| ==> !hits[i]
    decreases |hits| - from
  {
    if from >= |hits| then None
    else if hits[from] then Some(from)
    else IndexWhere(hits, from + 1)
  }

  // ---------------------------------------------------------------- posts

  datatype PostStatus = Pending | Published | Failed

  /** The status column's default. */
  const DefaultPostStatus: PostStatus := Pending

  /** One row of the posts table. */
  datatype Post = Post(
    id: nat,
    content: string,
    platform: string,
    postType: string,
    scheduledTime: int,
    publishedTime: Option<int>,
    status: PostStatus,
    platformPostId: Option<string>,
    likes: int,
    comments: int,
    shares: int,
    views: int,
    errorMessage: Option<string>,
    createdAt: int,
    updatedAt: int)

  /** The posts table; `nextId` is the next AUTOINCREMENT value. */
  datatype PostTable = PostTable(rows: seq<Post>, nextId: nat)

  /** Row ids are distinct and below the next id to hand out. */
  predicate ValidPosts(t: PostTable)
  {
    && t.nextId >= 1
    && (forall i :: 0 <= i < |t.rows| ==> 1 <= t.rows[i].id < t.nextId)
    && (forall i, j :: 0 <= i < j < |t.rows| ==> t.rows[i].id != t.rows[j].id)
  }

  const EmptyPosts: PostTable := PostTable([], 1)

  /** A row just inserted: nothing published, no external id, no error, counters at zero. */
  predicate FreshPost(p: Post, now: int)
  {
    && p.publishedTime.None? && p.platformPostId.None? && p.errorMessage.None?
    && p.likes == 0 && p.comments == 0 && p.shares == 0 && p.views == 0
    && p.createdAt == now && p.updatedAt == now
  }

  /** `insertPost`: a new row at the end with the next id. */
  function InsertPost(t: PostTable, content: string, platform: string, postType: string,
                      scheduledTime: int, status: PostStatus, now: int): (r: PostTable)
    requires ValidPosts(t)
    ensures ValidPosts(r)
    ensures |r.rows| == |t.rows| + 1 && r.rows[..|t.rows|] == t.rows
    ensures var p := r.rows[|t.rows|];
      && p.id == t.nextId && p.content == content && p.platform == platform
      && p.postType == postType && p.scheduledTime == scheduledTime && p.status == status
      && FreshPost(p, now)
  {
    var p := Post(t.nextId, content, platform, postType, scheduledTime, None, status, None,
                  0, 0, 0, 0, None, now, now);
    PostTable(t.rows + [p], t.nextId + 1)
  }

  /** A row the publisher must handle at time `now`. */
  predicate IsDue(p: Post, now: int)
  {
    p.status == Pending && p.scheduledTime <= now
  }

  function DueFilter(rows: seq<Post>, now: int): (r: seq<Post>)
    ensures forall p :: p in r <==> p in rows && IsDue(p, now)
    ensures |r| <= |rows|
  {
    if |rows| == 0 then []
    else
      var rest := DueFilter(rows[..|rows| - 1], now);
      var p := rows[|rows| - 1];
      assert rows == rows[..|rows| - 1] + [p];
      if IsDue(p, now) then rest + [p] else rest
  }

  function ScheduledTime(p: Post): int { p.scheduledTime }

  /** `getScheduledPosts`: the pending rows due by `now`, earliest first. */
  function DuePosts(t: PostTable, now: int): (r: seq<Post>)
    ensures forall p :: p in r <==> p in t.rows && IsDue(p, now)
    ensures SortedBy(r, ScheduledTime)
    ensures multiset(r) == multiset(DueFilter(t.rows, now))
  {
    var r := SortBy(DueFilter(t.rows, now), ScheduledTime);
    forall p
      ensures p in r <==> p in t.rows && IsDue(p, now)
    {
      SortByMembers(DueFilter(t.rows, now), ScheduledTime, p);
    }
    r
  }

  /** A pending row inserted for a time already passed is due. */
  lemma InsertedPendingIsDue(t: PostTable, content: string, platform: string, postType: string,
                             scheduledTime: int, now: int)
    requires ValidPosts(t) && scheduledTime <= now
    ensures InsertPost(t, content, platform, postType, scheduledTime, Pending, now).rows[|t.rows|]
      in DuePosts(InsertPost(t, content, platform, postType, scheduledTime, Pending, now), now)
  {
  }

  /** The row with id `id`, if any. */
  function PostById(t: PostTable, id: nat): (r: Option<Post>)
    ensures r.Some? ==> r.value in t.rows && r.value.id == id
    ensures r.None? ==> forall i :: 0 <= i < |t.rows| ==> t.rows[i].id != id
  {
    var hits := seq(|t.rows|, i requires 0 <= i < |t.rows| => t.rows[i].id == id);
    assert forall i :: 0 <= i < |t.rows| ==> hits[i] == (t.rows[i].id == id);
    match IndexWhere(hits, 0)
    case Some(i) => Some(t.rows[i])
    case None => None
  }

  /** The posts table with `change` applied to the row whose id is `id`. */
  function UpdatePost(t: PostTable, id: nat, change: Post -> Post): (r: PostTable)
    ensures r.nextId == t.nextId && |r.rows| == |t.rows|
    ensures forall i :: 0 <= i < |t.rows| ==>
      r.rows[i] == if t.rows[i].id == id then change(t.rows[i]) else t.rows[i]
  {
    PostTable(seq(|t.rows|, i requires 0 <= i < |t.rows| =>
      if t.rows[i].id == id then change(t.rows[i]) else t.rows[i]), t.nextId)
  }

  /**
   * `updatePostStatus`: status, published time, external id and error
   * message are overwritten together, and `updated_at` is refreshed.
   */
  function UpdatePostStatus(t: PostTable, id: nat, status: PostStatus, publishedTime: Option<int>,
                            platformPostId: Option<string>, error: Option<string>, now: int): (r: PostTable)
    requires ValidPosts(t)
    ensures ValidPosts(r)
    ensures r.nextId == t.nextId && |r.rows| == |t.rows|
    ensures forall i :: 0 <= i < |t.rows| && t.rows[i].id != id ==> r.rows[i] == t.rows[i]
    ensures forall i :: 0 <= i < |t.rows| && t.rows[i].id == id ==>
      r.rows[i] == t.rows[i].(status := status, publishedTime := publishedTime,
                              platformPostId := platformPostId, errorMessage := error, updatedAt := now)
  {
    UpdatePost(t, id, (p: Post) => p.(status := status, publishedTime := publishedTime,
                                      platformPostId := platformPostId, errorMessage := error, updatedAt := now))
  }

  /** `updatePostEngagement`: only the four counters and `updated_at` change. */
  function UpdatePostEngagement(t: PostTable, id: nat, likes: int, comments: int, shares: int, views: int,
                                now: int): (r: PostTable)
    requires ValidPosts(t)
    ensures ValidPosts(r)
    ensures r.nextId == t.nextId && |r.rows| == |t.rows|
    ensures forall i :: 0 <= i < |t.rows| && t.rows[i].id != id ==> r.rows[i] == t.rows[i]
    ensures forall i :: 0 <= i < |t.rows| && t.rows[i].id == id ==>
      r.rows[i] == t.rows[i].(likes := likes, comments := comments, shares := shares, views := views,
                              updatedAt := now)
  {
    UpdatePost(t, id, (p: Post) => p.(likes := likes, comments := comments, shares := shares, views := views,
                                      updatedAt := now))
  }

  /** Recording engagement never changes a row's status, publication time, external id or content. */
  lemma EngagementKeepsPublication(t: PostTable, id: nat, likes: int, comments: int, shares: int, views: int,
                                   now: int, i: nat)
    requires ValidPosts(t) && i < |t.rows|
    ensures var r := UpdatePostEngagement(t, id, likes, comments, shares, views, now).rows[i];
      && r.status == t.rows[i].status && r.publishedTime == t.rows[i].publishedTime
      && r.platformPostId == t.rows[i].platformPostId && r.content == t.rows[i].content
      && r.scheduledTime == t.rows[i].scheduledTime
  {
  }

  // ------------------------------------------------------------ analytics

  /** One row of the analytics table, unique per (date, platform). */
  datatype AnalyticsRow = AnalyticsRow(
    date: int,
    platform: string,
    totalPosts: int,
    totalLikes: int,
    totalComments: int,
    totalShares: int,
    totalViews: int,
    totalClicks: int,
    conversions: int)

  /** The totals one aggregation run adds for a (date, platform). */
  datatype DailyTotals = DailyTotals(posts: int, likes: int, comments: int, shares: int, views: int)

  predicate UniqueDays(t: seq<AnalyticsRow>)
  {
    forall i, j :: 0 <= i < j < |t| ==> (t[i].date, t[i].platform) != (t[j].date, t[j].platform)
  }

  /** Index of the row for (date, platform). */
  function FindDay(t: seq<AnalyticsRow>, date: int, platform: string): (r: Option<nat>)
    ensures r.Some? ==> r.value < |t| && t[r.value].date == date && t[r.value].platform == platform
    ensures r.None? ==> forall i :: 0 <= i < |t| ==> (t[i].date, t[i].platform) != (date, platform)
  {
    if |t| == 0 then None
    else if t[|t| - 1].date == date && t[|t| - 1].platform == platform then Some(|t| - 1)
    else FindDay(t[..|t| - 1], date, platform)
  }

  /** A row's totals with `s` added in. */
  function AddTotals(row: AnalyticsRow, s: DailyTotals): AnalyticsRow
  {
    row.(totalPosts := row.totalPosts + s.posts, totalLikes := row.totalLikes + s.likes,
         totalComments := row.totalComments + s.comments, totalShares := row.totalShares + s.shares,
         totalViews := row.totalViews + s.views)
  }

  /**
   * `insertOrUpdateAnalytics`: a new (date, platform) gets a row with the
   * totals (clicks and conversions at 0); an existing one has the totals
   * ADDED to it.
   */
  function UpsertAnalytics(t: seq<AnalyticsRow>, date: int, platform: string, s: DailyTotals): (r: seq<AnalyticsRow>)
    requires UniqueDays(t)
    ensures UniqueDays(r)
    ensures FindDay(r, date, platform).Some?
    ensures FindDay(t, date, platform).None? ==>
      r == t + [AnalyticsRow(date, platform, s.posts, s.likes, s.comments, s.shares, s.views, 0, 0)]
    ensures FindDay(t, date, platform).Some? ==>
      var i := FindDay(t, date, platform).value;
      |r| == |t| && r[i] == AddTotals(t[i], s)
      && forall j :: 0 <= j < |t| && j != i ==> r[j] == t[j]
  {
    match FindDay(t, date, platform)
    case None =>
      var r := t + [AnalyticsRow(date, platform, s.posts, s.likes, s.comments, s.shares, s.views, 0, 0)];
      assert r[|t|].date == date && r[|t|].platform == platform;
      r
    case Some(i) =>
      var r := t[i := AddTotals(t[i], s)];
      assert r[i].date == date && r[i].platform == platform;
      r
  }

  /** The row for (date, platform) in a table with unique keys is the one `FindDay` finds. */
  lemma {:induction false} FindDayUnique(t: seq<AnalyticsRow>, i: nat)
    requires UniqueDays(t) && i < |t|
    ensures FindDay(t, t[i].date, t[i].platform) == Some(i)
    decreases |t|
  {
    if i < |t| - 1 {
      assert (t[i].date, t[i].platform) != (t[|t| - 1].date, t[|t| - 1].platform);
      FindDayUnique(t[..|t| - 1], i);
    }
  }

  /** Aggregating the same totals twice counts them twice: the upsert is not idempotent. */
  lemma UpsertTwiceAddsTwice(t: seq<AnalyticsRow>, date: int, platform: string, s: DailyTotals)
    requires UniqueDays(t)
    ensures var once := UpsertAnalytics(t, date, platform, s);
      var twice := UpsertAnalytics(once, date, platform, s);
      var k := FindDay(twice, date, platform).value;
      twice[k].totalPosts == (if FindDay(t, date, platform).Some? then t[FindDay(t, date, platform).value].totalPosts else 0)
        + 2 * s.posts
    ensures s.posts != 0 ==>
      UpsertAnalytics(UpsertAnalytics(t, date, platform, s), date, platform, s) != UpsertAnalytics(t, date, platform, s)
  {
    var once := UpsertAnalytics(t, date, platform, s);
    var k := FindDay(once, date, platform).value;
    FindDayUnique(once, k);
    var twice := UpsertAnalytics(once, date, platform, s);
    FindDayUnique(twice, k);
    if FindDay(t, date, platform).Some? {
      var i := FindDay(t, date, platform).value;
      FindDayUnique(once, i);
      assert k == i;
    } else {
      FindDayUnique(once, |t|);
      assert k == |t|;
    }
    assert twice[k].totalPosts == once[k].totalPosts + s.posts;
  }

  // ---------------------------------------------------------------- leads

  /** The funnel stages a lead moves through. */
  datatype LeadStatus = New | Contacted | Qualified | Converted | Lost | Trial

  /** The status column's default. */
  const DefaultLeadStatus: LeadStatus := New

  /**
   * The notes column. The scoring code keeps its counters there as a JSON
   * object, any of whose fields may be missing (`FactorNote`); any other text
   * (`TextNote`) does not parse as such an object.
   */
  datatype Note =
    | FactorNote(emailOpens: Option<int>, linkClicks: Option<int>, pricingViews: Option<int>,
                 trialSignups: Option<int>, touchpoints: Option<int>)
    | TextNote(text: string)

  /** One row of the leads table. `interest` holds low/medium/high, or the hot/warm/cold tier the scoring writes. */
  datatype Lead = Lead(
    id: nat,
    email: string,
    name: Option<string>,
    source: string,
    status: LeadStatus,
    interest: Option<string>,
    lastInteraction: Option<int>,
    converted: bool,
    conversionDate: Option<int>,
    notes: Option<Note>,
    createdAt: int,
    updatedAt: int)

  /**
   * The leads table. The id of an inserted row is `nextId`; the connection's
   * last inserted row id is not the table's, since inserts into any table
   * move it, and the lead manager tracks it.
   */
  datatype LeadTable = LeadTable(rows: seq<Lead>, nextId: nat)

  /** Ids are distinct and below the next id; emails are unique. */
  predicate ValidLeads(t: LeadTable)
  {
    && t.nextId >= 1
    && (forall i :: 0 <= i < |t.rows| ==> 1 <= t.rows[i].id < t.nextId)
    && (forall i, j :: 0 <= i < j < |t.rows| ==> t.rows[i].id != t.rows[j].id)
    && (forall i, j :: 0 <= i < j < |t.rows| ==> t.rows[i].email != t.rows[j].email)
  }

  const EmptyLeads: LeadTable := LeadTable([], 1)

  /** Index of the lead with `email`. */
  function FindLead(t: LeadTable, email: string): (r: Option<nat>)
    ensures r.Some? ==> r.value < |t.rows| && t.rows[r.value].email == email
    ensures r.None? ==> forall i :: 0 <= i < |t.rows| ==> t.rows[i].email != email
  {
    var hits := seq(|t.rows|, i requires 0 <= i < |t.rows| => t.rows[i].email == email);
    assert forall i :: 0 <= i < |t.rows| ==> hits[i] == (t.rows[i].email == email);
    IndexWhere(hits, 0)
  }

  /** Index of the lead with id `id`. */
  function FindLeadById(t: LeadTable, id: nat): (r: Option<nat>)
    ensures r.Some? ==> r.value < |t.rows| && t.rows[r.value].id == id
    ensures r.None? ==> forall i :: 0 <= i < |t.rows| ==> t.rows[i].id != id
  {
    var hits := seq(|t.rows|, i requires 0 <= i < |t.rows| => t.rows[i].id == id);
    assert forall i :: 0 <= i < |t.rows| ==> hits[i] == (t.rows[i].id == id);
    IndexWhere(hits, 0)
  }

  /**
   * `insertLead`: a new email gets a row with status `new`; for a known
   * email only the last interaction and `updated_at` are refreshed. The
   * boolean tells whether a row was inserted.
   */
  function InsertLead(t: LeadTable, email: string, name: Option<string>, source: string,
                      interest: Option<string>, now: int): (r: (LeadTable, bool))
    requires ValidLeads(t)
    ensures ValidLeads(r.0)
    ensures r.1 <==> FindLead(t, email).None?
    ensures r.1 ==>
      && r.0.rows == t.rows + [Lead(t.nextId, email, name, source, DefaultLeadStatus, interest, Some(now),
                                    false, None, None, now, now)]
      && r.0.nextId == t.nextId + 1
    ensures !r.1 ==>
      var i := FindLead(t, email).value;
      && |r.0.rows| == |t.rows| && r.0.nextId == t.nextId
      && r.0.rows[i] == t.rows[i].(lastInteraction := Some(now), updatedAt := now)
      && forall j :: 0 <= j < |t.rows| && j != i ==> r.0.rows[j] == t.rows[j]
  {
    match FindLead(t, email)
    case None =>
      var lead := Lead(t.nextId, email, name, source, DefaultLeadStatus, interest, Some(now),
                       false, None, None, now, now);
      AppendLeadValid(t, lead);
      (LeadTable(t.rows + [lead], t.nextId + 1), true)
    case Some(i) =>
      (ChangeLead(t, i, t.rows[i].(lastInteraction := Some(now), updatedAt := now)), false)
  }

  /** A row with the next id and a new e-mail keeps the table valid. */
  lemma AppendLeadValid(t: LeadTable, lead: Lead)
    requires ValidLeads(t) && lead.id == t.nextId
    requires forall i :: 0 <= i < |t.rows| ==> t.rows[i].email != lead.email
    ensures ValidLeads(LeadTable(t.rows + [lead], t.nextId + 1))
  {
    var rows := t.rows + [lead];
    assert forall i :: 0 <= i < |t.rows| ==> rows[i] == t.rows[i];
    assert rows[|t.rows|] == lead;
  }

  /** Capturing a known email again keeps its name, source, interest, status and notes. */
  lemma InsertLeadKeepsExisting(t: LeadTable, email: string, name: Option<string>, source: string,
                                interest: Option<string>, now: int, i: nat)
    requires ValidLeads(t) && i < |t.rows| && t.rows[i].email == email
    ensures var r := InsertLead(t, email, name, source, interest, now).0.rows[i];
      && r.name == t.rows[i].name && r.source == t.rows[i].source && r.interest == t.rows[i].interest
      && r.status == t.rows[i].status && r.notes == t.rows[i].notes && r.id == t.rows[i].id
      && r.lastInteraction == Some(now)
  {
    assert FindLead(t, email) == Some(i);
  }

  /** The leads table with `change` applied to the row at index `i`; ids and emails are kept. */
  function ChangeLead(t: LeadTable, i: nat, change: Lead): (r: LeadTable)
    requires ValidLeads(t) && i < |t.rows|
    requires change.id == t.rows[i].id && change.email == t.rows[i].email
    ensures ValidLeads(r)
    ensures r.nextId == t.nextId && |r.rows| == |t.rows|
    ensures r.rows[i] == change && forall j :: 0 <= j < |t.rows| && j != i ==> r.rows[j] == t.rows[j]
  {
    t.(rows := t.rows[i := change])
  }
}
