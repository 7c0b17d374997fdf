/**
 * The analytics manager: the engagement trend of a platform, the success
 * rate and per-post average of the performance report, the recommendation
 * list built from them, and the CSV branch of the export.
 *
 * SQL aggregates arrive as inputs; numbers are exact reals, not doubles.
 */
module Analytics {
  import opened Common
  import opened Text

  // ---------------------------------------------------------------------
  // Trend
  // ---------------------------------------------------------------------

  datatype Trend = Up | Down | Stable

  /** The answer to a `SELECT SUM(...)` query: it threw, gave NULL, or gave a number. */
  datatype Sum = QueryError | Null | Value(v: real)

  /** `stats?.engagement || 0`: NULL reads as 0. */
  function Engagement(s: Sum): real
    requires !s.QueryError?
  {
    match s
    case Null => 0.0
    case Value(v) => v
  }

  /** The trend a relative change in percent gives: above 10 is up, below -10 is down. */
  function Classify(change: real): Trend
  {
    if change > 10.0 then Up
    else if change < -10.0 then Down
    else Stable
  }

  /**
   * `calculateTrend`: the relative change from the older half of the window
   * to the recent half, in percent, classified. No older engagement, or a
   * failed query, is stable. With positive older engagement that is: up
   * exactly when recent engagement exceeds the older by more than a tenth,
   * down exactly when it falls short by more than a tenth.
   */
  function CalculateTrend(recentSum: Sum, olderSum: Sum): (r: Trend)
    ensures recentSum.QueryError? || olderSum.QueryError? ==> r == Stable
    ensures !recentSum.QueryError? && !olderSum.QueryError? && Engagement(olderSum) == 0.0 ==> r == Stable
    ensures !recentSum.QueryError? && !olderSum.QueryError? && Engagement(olderSum) > 0.0 ==>
      var recent, older := Engagement(recentSum), Engagement(olderSum);
      && (r == Up <==> 10.0 * recent > 11.0 * older)
      && (r == Down <==> 10.0 * recent < 9.0 * older)
  {
    if recentSum.QueryError? || olderSum.QueryError? then Stable
    else
      var recent := Engagement(recentSum);
      var older := Engagement(olderSum);
      if older == 0.0 then Stable
      else
        var change := (recent - older) / older * 100.0;
        if older > 0.0 then
          ChangeScaled(recent, older);
          Classify(change)
        else
          Classify(change)
  }

  lemma ChangeScaled(recent: real, older: real)
    requires older > 0.0
    ensures (recent - older) / older * 100.0 > 10.0 <==> 10.0 * recent > 11.0 * older
    ensures (recent - older) / older * 100.0 < -10.0 <==> 10.0 * recent < 9.0 * older
  {
    var q := (recent - older) / older;
    assert q * older == recent - older;
    assert q * 100.0 > 10.0 <==> q * older * 10.0 > older by {
      assert q > 0.1 <==> q * older > 0.1 * older;
    }
    assert q * 100.0 < -10.0 <==> q * older * 10.0 < -older by {
      assert q < -0.1 <==> q * older < -0.1 * older;
    }
  }

  // ---------------------------------------------------------------------
  // Report arithmetic
  // ---------------------------------------------------------------------

  /**
   * The report's success rate: published posts over published plus failed,
   * in percent, or 0 when nothing was attempted.
   */
  function SuccessRate(published: nat, failed: nat): (r: real)
    ensures 0.0 <= r <= 100.0
    ensures published + failed == 0 ==> r == 0.0
    ensures r == 100.0 <==> published > 0 && failed == 0
    ensures r == 0.0 <==> published == 0
    ensures published + failed > 0 ==> r * (published + failed) as real == 100.0 * published as real
  {
    var attempts := published + failed;
    if attempts > 0 then
      var r := published as real / attempts as real * 100.0;
      RateBounds(published as real, attempts as real);
      r
    else 0.0
  }

  lemma RateBounds(p: real, n: real)
    requires 0.0 <= p <= n && n > 0.0
    ensures var r := p / n * 100.0;
      && 0.0 <= r <= 100.0
      && (r == 100.0 <==> p == n)
      && (r == 0.0 <==> p == 0.0)
      && r * n == 100.0 * p
  {
    DivAtMostOne(p, n);
    assert p / n == 1.0 <==> p == n;
  }

  lemma DivAtMostOne(p: real, n: real)
    requires 0.0 <= p <= n && n > 0.0
    ensures p / n <= 1.0
  {
    var q := p / n;
    assert q * n == p;
  }

  /** The overall sums of the report's window; NULL when there were no rows. */
  datatype Overall = Overall(totalPosts: Option<int>, totalLikes: Option<int>,
                             totalComments: Option<int>, totalShares: Option<int>)

  /**
   * `avgEngagementPerPost`: likes, comments and shares per post when there
   * are posts, else 0. A NULL sum counts as 0 in the addition.
   */
  function AvgEngagementPerPost(o: Overall): (r: real)
    ensures o.totalPosts.None? || o.totalPosts.value <= 0 ==> r == 0.0
    ensures o.totalPosts.Some? && o.totalPosts.value > 0 ==>
      r * o.totalPosts.value as real == (o.totalLikes.GetOr(0) + o.totalComments.GetOr(0) + o.totalShares.GetOr(0)) as real
  {
    match o.totalPosts
    case Some(n) =>
      if n > 0 then
        var total := o.totalLikes.GetOr(0) + o.totalComments.GetOr(0) + o.totalShares.GetOr(0);
        total as real / n as real
      else 0.0
    case None => 0.0
  }

  /** With no negative sums, the average is not negative. */
  lemma AvgNonNegative(o: Overall)
    requires o.totalLikes.GetOr(0) >= 0 && o.totalComments.GetOr(0) >= 0 && o.totalShares.GetOr(0) >= 0
    ensures AvgEngagementPerPost(o) >= 0.0
  {
    var r := AvgEngagementPerPost(o);
    if o.totalPosts.Some? && o.totalPosts.value > 0 {
      var n := o.totalPosts.value as real;
      assert r * n >= 0.0;
      assert r >= 0.0;
    }
  }

  // ---------------------------------------------------------------------
  // Recommendations
  // ---------------------------------------------------------------------

  /** A row of the report's per-platform table, as the recommendations read it. */
  datatype PlatformPerformance = PlatformPerformance(platform: string, avgEngagement: real, trend: Trend)

  /** The recommendation texts, by the fact each one reports. */
  datatype Recommendation =
    | LowSuccess(rate: real)
    | BestVsWorst(best: string, worst: string)
    | TopCategory(category: string)
    | LowEngagement(average: real)
    | TrendingUp(names: seq<string>)
    | TrendingDown(names: seq<string>)
    | AllGood

  /** Position of each kind of recommendation in the list. */
  function Rank(r: Recommendation): nat
  {
    match r
    case LowSuccess(_) => 0
    case BestVsWorst(_, _) => 1
    case TopCategory(_) => 2
    case LowEngagement(_) => 3
    case TrendingUp(_) => 4
    case TrendingDown(_) => 5
    case AllGood => 6
  }

  /** `platforms.filter(p => p.trend === t).map(p => p.platform)`. */
  function NamesWith(platforms: seq<PlatformPerformance>, t: Trend): (r: seq<string>)
    ensures |r| <= |platforms|
    ensures forall i :: 0 <= i < |platforms| && platforms[i].trend == t ==> platforms[i].platform in r
    ensures forall x :: x in r ==> exists i :: 0 <= i < |platforms| && platforms[i].trend == t && platforms[i].platform == x
    ensures |r| == 0 <==> forall i :: 0 <= i < |platforms| ==> platforms[i].trend != t
  {
    if |platforms| == 0 then []
    else
      var rest := NamesWith(platforms[1..], t);
      assert forall i :: 1 <= i < |platforms| ==> platforms[1..][i - 1] == platforms[i];
      if platforms[0].trend == t then [platforms[0].platform] + rest else rest
  }

  /** `bestPlatform.avgEngagement > worstPlatform.avgEngagement * 2`, when both exist. */
  predicate BestFarAhead(platforms: seq<PlatformPerformance>)
  {
    |platforms| > 0 && platforms[0].avgEngagement > platforms[|platforms| - 1].avgEngagement * 2.0
  }

  /** A one-element list when the condition holds, else the empty list. */
  function When(c: bool, x: Recommendation): (r: seq<Recommendation>)
    ensures x in r <==> c
    ensures |r| <= 1
  {
    if c then [x] else []
  }

  /** The best-against-worst entry, when the best platform is far ahead. */
  function Comparison(platforms: seq<PlatformPerformance>): (r: seq<Recommendation>)
    ensures |r| <= 1
    ensures forall i :: 0 <= i < |r| ==> r[i].BestVsWorst?
  {
    if BestFarAhead(platforms)
    then [BestVsWorst(platforms[0].platform, platforms[|platforms| - 1].platform)]
    else []
  }

  /**
   * The recommendations the report's checks find, in the order they are
   * checked: success rate, best against worst platform, top category, low
   * engagement, rising platforms, falling platforms.
   */
  function Found(platforms: seq<PlatformPerformance>, topPostCount: nat, topCategory: Option<string>,
                 successRate: real, avgEngagementPerPost: real): seq<Recommendation>
  {
    var up := NamesWith(platforms, Up);
    var down := NamesWith(platforms, Down);
    When(successRate < 90.0, LowSuccess(successRate))
    + Comparison(platforms)
    + When(topPostCount > 0 && topCategory.Some?, TopCategory(topCategory.GetOr("")))
    + When(avgEngagementPerPost < 5.0, LowEngagement(avgEngagementPerPost))
    + When(|up| > 0, TrendingUp(up))
    + When(|down| > 0, TrendingDown(down))
  }

  /**
   * `generateRecommendations`. `topPostCount` is the number of top posts and
   * `topCategory` the answer of the category query, asked only when there
   * are top posts. When no check finds anything the list is the single
   * "everything looks good" entry, so it is never empty.
   */
  function GenerateRecommendations(platforms: seq<PlatformPerformance>, topPostCount: nat,
                                   topCategory: Option<string>, successRate: real,
                                   avgEngagementPerPost: real): (r: seq<Recommendation>)
    ensures |r| >= 1
  {
    var found := Found(platforms, topPostCount, topCategory, successRate, avgEngagementPerPost);
    if |found| == 0 then [AllGood] else found
  }

  /**
   * The rule each recommendation states, independently of the order of
   * the checks: the value it reports is the input's and its condition holds.
   */
  predicate Applies(x: Recommendation, platforms: seq<PlatformPerformance>, topPostCount: nat,
                    topCategory: Option<string>, successRate: real, avgEngagementPerPost: real)
  {
    match x
    case LowSuccess(rate) => rate == successRate && successRate < 90.0
    case BestVsWorst(best, worst) =>
      BestFarAhead(platforms) && best == platforms[0].platform && worst == platforms[|platforms| - 1].platform
    case TopCategory(category) => topPostCount > 0 && topCategory == Some(category)
    case LowEngagement(average) => average == avgEngagementPerPost && avgEngagementPerPost < 5.0
    case TrendingUp(names) => names == NamesWith(platforms, Up) && |names| > 0
    case TrendingDown(names) => names == NamesWith(platforms, Down) && |names| > 0
    case AllGood => false
  }

  /** The checks find exactly the recommendations whose rule applies. */
  lemma FoundIff(platforms: seq<PlatformPerformance>, topPostCount: nat, topCategory: Option<string>,
                 successRate: real, avgEngagementPerPost: real, x: Recommendation)
    ensures x in Found(platforms, topPostCount, topCategory, successRate, avgEngagementPerPost)
      <==> Applies(x, platforms, topPostCount, topCategory, successRate, avgEngagementPerPost)
  {
  }

  /**
   * A recommendation is listed exactly when its rule applies, or it is
   * "everything looks good" and no rule applies to anything.
   */
  lemma RecommendationsIff(platforms: seq<PlatformPerformance>, topPostCount: nat, topCategory: Option<string>,
                           successRate: real, avgEngagementPerPost: real, x: Recommendation)
    ensures var r := GenerateRecommendations(platforms, topPostCount, topCategory, successRate, avgEngagementPerPost);
      var found := Found(platforms, topPostCount, topCategory, successRate, avgEngagementPerPost);
      x in r <==> Applies(x, platforms, topPostCount, topCategory, successRate, avgEngagementPerPost)
                  || (x == AllGood && |found| == 0)
  {
    FoundIff(platforms, topPostCount, topCategory, successRate, avgEngagementPerPost, x);
  }

  /** The entries strictly increase in rank: no kind twice, checks in order. */
  predicate Ranked(s: seq<Recommendation>)
  {
    forall i, j :: 0 <= i < j < |s| ==> Rank(s[i]) < Rank(s[j])
  }

  /** Ranked, and every entry below rank `k`. */
  predicate RankedBelow(s: seq<Recommendation>, k: nat)
  {
    Ranked(s) && forall i :: 0 <= i < |s| ==> Rank(s[i]) < k
  }

  /** At most one entry, of rank `k`. */
  predicate PieceOf(piece: seq<Recommendation>, k: nat)
  {
    |piece| <= 1 && forall i :: 0 <= i < |piece| ==> Rank(piece[i]) == k
  }

  lemma AppendRanked(s: seq<Recommendation>, piece: seq<Recommendation>, k: nat)
    requires RankedBelow(s, k) && PieceOf(piece, k)
    ensures RankedBelow(s + piece, k + 1)
  {
    var t := s + piece;
    assert forall i :: 0 <= i < |s| ==> t[i] == s[i];
    assert forall i :: |s| <= i < |t| ==> t[i] == piece[i - |s|];
  }

  lemma AppendThree(s: seq<Recommendation>, a: seq<Recommendation>, b: seq<Recommendation>,
                    c: seq<Recommendation>, k: nat)
    requires RankedBelow(s, k) && PieceOf(a, k) && PieceOf(b, k + 1) && PieceOf(c, k + 2)
    ensures RankedBelow(s + a + b + c, k + 3)
  {
    AppendRanked(s, a, k);
    AppendRanked(s + a, b, k + 1);
    AppendRanked(s + a + b, c, k + 2);
  }

  lemma WhenPiece(c: bool, x: Recommendation)
    ensures PieceOf(When(c, x), Rank(x))
  {
  }

  lemma SixRanked(p1: seq<Recommendation>, p2: seq<Recommendation>, p3: seq<Recommendation>,
                  p4: seq<Recommendation>, p5: seq<Recommendation>, p6: seq<Recommendation>)
    requires PieceOf(p1, 0) && PieceOf(p2, 1) && PieceOf(p3, 2)
    requires PieceOf(p4, 3) && PieceOf(p5, 4) && PieceOf(p6, 5)
    ensures Ranked(p1 + p2 + p3 + p4 + p5 + p6)
  {
    var none: seq<Recommendation> := [];
    AppendThree(none, p1, p2, p3, 0);
    assert none + p1 + p2 + p3 == p1 + p2 + p3;
    AppendThree(p1 + p2 + p3, p4, p5, p6, 3);
  }

  /**
   * The list follows the order of the checks and names each kind at most
   * once.
   */
  lemma RecommendationsOrdered(platforms: seq<PlatformPerformance>, topPostCount: nat, topCategory: Option<string>,
                               successRate: real, avgEngagementPerPost: real)
    ensures Ranked(GenerateRecommendations(platforms, topPostCount, topCategory, successRate, avgEngagementPerPost))
  {
    var up := NamesWith(platforms, Up);
    var down := NamesWith(platforms, Down);
    var p1 := When(successRate < 90.0, LowSuccess(successRate));
    var p2 := Comparison(platforms);
    var p3 := When(topPostCount > 0 && topCategory.Some?, TopCategory(topCategory.GetOr("")));
    var p4 := When(avgEngagementPerPost < 5.0, LowEngagement(avgEngagementPerPost));
    var p5 := When(|up| > 0, TrendingUp(up));
    var p6 := When(|down| > 0, TrendingDown(down));
    WhenPiece(successRate < 90.0, LowSuccess(successRate));
    WhenPiece(topPostCount > 0 && topCategory.Some?, TopCategory(topCategory.GetOr("")));
    WhenPiece(avgEngagementPerPost < 5.0, LowEngagement(avgEngagementPerPost));
    WhenPiece(|up| > 0, TrendingUp(up));
    WhenPiece(|down| > 0, TrendingDown(down));
    SixRanked(p1, p2, p3, p4, p5, p6);
  }

  /**
   * "Everything looks good" is given exactly when no other recommendation
   * applies.
   */
  lemma AllGoodIff(platforms: seq<PlatformPerformance>, topPostCount: nat, topCategory: Option<string>,
                   successRate: real, avgEngagementPerPost: real)
    ensures GenerateRecommendations(platforms, topPostCount, topCategory, successRate, avgEngagementPerPost) == [AllGood]
      <==> && successRate >= 90.0
           && !BestFarAhead(platforms)
           && (topPostCount == 0 || topCategory.None?)
           && avgEngagementPerPost >= 5.0
           && forall i :: 0 <= i < |platforms| ==> platforms[i].trend == Stable
  {
    var found := Found(platforms, topPostCount, topCategory, successRate, avgEngagementPerPost);
    var up := NamesWith(platforms, Up);
    var down := NamesWith(platforms, Down);
    assert AllGood !in found by {
      FoundIff(platforms, topPostCount, topCategory, successRate, avgEngagementPerPost, AllGood);
    }
    if forall i :: 0 <= i < |platforms| ==> platforms[i].trend == Stable {
      assert |up| == 0 && |down| == 0;
    }
  }

  /**
   * With one platform, best and worst are the same row, so with a
   * non-negative average the two-times comparison cannot hold.
   */
  lemma SinglePlatformNoComparison(p: PlatformPerformance, topPostCount: nat, topCategory: Option<string>,
                                   successRate: real, avgEngagementPerPost: real, best: string, worst: string)
    requires p.avgEngagement >= 0.0
    ensures BestVsWorst(best, worst) !in GenerateRecommendations([p], topPostCount, topCategory, successRate, avgEngagementPerPost)
  {
    assert !BestFarAhead([p]);
    RecommendationsIff([p], topPostCount, topCategory, successRate, avgEngagementPerPost, BestVsWorst(best, worst));
  }

  // ---------------------------------------------------------------------
  // CSV export
  // ---------------------------------------------------------------------

  /**
   * A row of `getRangeStats`. `engagementRate` is the rate as JavaScript
   * prints it, or NULL when the day had no posts.
   */
  datatype DailyStats = DailyStats(
    date: string,
    platform: string,
    totalPosts: int,
    totalLikes: int,
    totalComments: int,
    totalShares: int,
    totalViews: int,
    engagementRate: Option<string>)

  const Headers: seq<string> :=
    ["date", "platform", "totalPosts", "totalLikes", "totalComments", "totalShares", "totalViews", "engagementRate"]

  /** A row's values in header order; `join` prints NULL as the empty string. */
  function Fields(row: DailyStats): (r: seq<string>)
    ensures |r| == |Headers|
  {
    [row.date, row.platform, IntToString(row.totalPosts), IntToString(row.totalLikes),
     IntToString(row.totalComments), IntToString(row.totalShares), IntToString(row.totalViews),
     row.engagementRate.GetOr("")]
  }

  function RowLines(rows: seq<DailyStats>): (r: seq<string>)
    ensures |r| == |rows|
    ensures forall i :: 0 <= i < |rows| ==> r[i] == Join(Fields(rows[i]), ',')
  {
    seq(|rows|, i requires 0 <= i < |rows| => Join(Fields(rows[i]), ','))
  }

  /** The first line of every export: the header names joined with commas. */
  const HeaderLine: string := Join(Headers, ',')

  /**
   * The CSV branch of `exportAnalytics`: the header line, then one line per
   * row; with no rows, the header line alone.
   */
  function ExportCsv(rows: seq<DailyStats>): (r: string)
    ensures |rows| == 0 ==> r == HeaderLine
    ensures |rows| > 0 ==>
      && |r| > |HeaderLine| && r[..|HeaderLine|] == HeaderLine && r[|HeaderLine|] == '\n'
      && r[|HeaderLine| + 1..] == Join(RowLines(rows), '\n')
  {
    var lines := [HeaderLine] + RowLines(rows);
    assert |rows| > 0 ==> lines[1..] == RowLines(rows);
    Join(lines, '\n')
  }

  /** The text fields hold neither a comma nor a line break. */
  predicate PlainRow(row: DailyStats)
  {
    && ',' !in row.date && '\n' !in row.date
    && ',' !in row.platform && '\n' !in row.platform
    && (row.engagementRate.Some? ==> ',' !in row.engagementRate.value && '\n' !in row.engagementRate.value)
  }

  lemma PlainFields(row: DailyStats)
    requires PlainRow(row)
    ensures forall k :: 0 <= k < |Fields(row)| ==> ',' !in Fields(row)[k] && '\n' !in Fields(row)[k]
  {
  }

  lemma HeadersPlain()
    ensures forall k :: 0 <= k < |Headers| ==> ',' !in Headers[k] && '\n' !in Headers[k]
  {
  }

  /**
   * Reading the export back: split on line breaks it gives the header line
   * and one line per row, and each line split on commas gives eight fields,
   * the header names or the row's values.
   */
  lemma {:induction false} CsvRoundTrip(rows: seq<DailyStats>)
    requires forall i :: 0 <= i < |rows| ==> PlainRow(rows[i])
    ensures var lines := Split(ExportCsv(rows), '\n');
      && |lines| == |rows| + 1
      && Split(lines[0], ',') == Headers
      && forall i :: 0 <= i < |rows| ==> Split(lines[i + 1], ',') == Fields(rows[i])
  {
    var body := RowLines(rows);
    var all := [Join(Headers, ',')] + body;
    HeadersPlain();
    SplitJoin(Headers, ',');
    JoinFree(Headers, ',', '\n');
    forall i | 0 <= i < |rows|
      ensures Split(body[i], ',') == Fields(rows[i]) && '\n' !in body[i]
    {
      PlainFields(rows[i]);
      SplitJoin(Fields(rows[i]), ',');
      JoinFree(Fields(rows[i]), ',', '\n');
    }
    assert forall k :: 0 <= k < |all| ==> '\n' !in all[k];
    SplitJoin(all, '\n');
  }

  /** The counts come back as numbers: a non-negative count parses to itself. */
  lemma CsvCountsParse(row: DailyStats)
    requires PlainRow(row) && row.totalPosts >= 0 && row.totalViews >= 0
    ensures ParseNat(Fields(row)[2]) == Some(row.totalPosts)
    ensures ParseNat(Fields(row)[6]) == Some(row.totalViews)
  {
    ParseNatToString(row.totalPosts);
    ParseNatToString(row.totalViews);
  }
}
