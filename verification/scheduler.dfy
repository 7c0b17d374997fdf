/**
 * The post scheduler's daily generation and its life cycle: drawing the
 * day's total, the category mix and the split over the authenticated
 * platforms, generating and inserting each post at its slot, generating
 * only when the day has nothing scheduled yet, and starting and stopping
 * the four recurring jobs.
 */
module Scheduler {
  import opened Common
  import opened Templates
  import opened Generator
  import opened Platforms
  import opened Store
  import opened Allocation
  import opened Sorting

  /**
   * The `Math.random()` draws of one day's generation: the one that sizes
   * the day, one per position of the category mix, and per generation
   * attempt the draws of the generator and of the time jitter.
   */
  datatype DayDraws = DayDraws(total: Unit, mix: nat -> Unit, post: nat -> PostDraws, jitter: nat -> Unit)

  /** What the generation loop carries: the posts table, the recently used templates, the posts scheduled and the attempts made. */
  datatype Progress = Progress(posts: PostTable, recent: seq<string>, scheduled: nat, attempts: nat)

  /** Some template of the library can be posted on `platform` (see `HasTemplateMeans`). */
  predicate HasTemplate(lib: seq<Template>, platform: string)
    decreases |lib|
  {
    |lib| > 0 && (platform in lib[0].platforms || HasTemplate(lib[1..], platform))
  }

  /** `HasTemplate` holds exactly when some template of the library lists the platform. */
  lemma {:induction false} HasTemplateMeans(lib: seq<Template>, platform: string)
    ensures HasTemplate(lib, platform) <==> exists t :: t in lib && platform in t.platforms
    decreases |lib|
  {
    if |lib| > 0 {
      HasTemplateMeans(lib[1..], platform);
      assert forall t :: t in lib <==> t == lib[0] || t in lib[1..];
    }
  }

  /** A row the daily generation inserted for `platform`: pending, placed on `today`, just created. */
  predicate ScheduledFor(p: Post, platform: string, today: int, now: int)
  {
    && p.platform == platform && p.status == Pending
    && DayOf(p.scheduledTime) == today && FreshPost(p, now)
  }

  /**
   * `after` is `before` with rows appended, each one scheduled on `today`
   * for one of `names`.
   */
  predicate Extends(before: PostTable, after: PostTable, names: seq<string>, today: int, now: int)
  {
    && |before.rows| <= |after.rows| && after.rows[..|before.rows|] == before.rows
    && forall j :: |before.rows| <= j < |after.rows| ==>
         after.rows[j].platform in names && ScheduledFor(after.rows[j], after.rows[j].platform, today, now)
  }

  lemma ExtendsTrans(a: PostTable, b: PostTable, c: PostTable, names: seq<string>, today: int, now: int)
    requires Extends(a, b, names, today, now) && Extends(b, c, names, today, now)
    ensures Extends(a, c, names, today, now)
  {
    assert c.rows[..|a.rows|] == c.rows[..|b.rows|][..|a.rows|];
    forall j | |a.rows| <= j < |c.rows|
      ensures c.rows[j].platform in names && ScheduledFor(c.rows[j], c.rows[j].platform, today, now)
    {
      if j < |b.rows| {
        assert c.rows[j] == c.rows[..|b.rows|][j];
      }
    }
  }

  lemma ExtendsWiden(a: PostTable, b: PostTable, names: seq<string>, today: int, now: int)
    requires |names| > 0 && Extends(a, b, [names[0]], today, now)
    ensures Extends(a, b, names, today, now)
  {
  }

  /**
   * One round of the inner loop: generate a post for `platform` in the next
   * category of the mix; when one comes out, insert it pending at the
   * round's slot and count it.
   */
  function Round(lib: seq<Template>, platform: string, i: nat, mix: seq<string>, today: int, now: int,
                 d: DayDraws, s: Progress): (r: Progress)
    requires ValidPosts(s.posts) && Distinct(s.recent) && s.scheduled < |mix|
    ensures ValidPosts(r.posts) && Distinct(r.recent) && r.attempts == s.attempts + 1
    ensures r.scheduled == s.scheduled || r.scheduled == s.scheduled + 1
    ensures HasTemplate(lib, platform) <==> r.scheduled == s.scheduled + 1
    ensures r.scheduled == s.scheduled ==> r.posts == s.posts && r.recent == s.recent
    ensures |r.posts.rows| == |s.posts.rows| + (r.scheduled - s.scheduled)
    ensures Extends(s.posts, r.posts, [platform], today, now)
    ensures r.scheduled == s.scheduled + 1 ==>
      r.posts.rows[|s.posts.rows|].scheduledTime == SlotTime(platform, i, today, d.jitter(s.attempts))
  {
    HasTemplateMeans(lib, platform);
    var g := GeneratePost(lib, platform, mix[s.scheduled], s.recent, d.post(s.attempts));
    match g.post
    case None => s.(attempts := s.attempts + 1)
    case Some(p) =>
      var at := SlotTime(platform, i, today, d.jitter(s.attempts));
      var posts := InsertPost(s.posts, p.content, platform, p.category, at, Pending, now);
      Progress(posts, g.recent, s.scheduled + 1, s.attempts + 1)
  }

  /**
   * The inner loop for one platform, from round `i` on: rounds run while
   * fewer than `numPosts` have run and fewer than `total` posts are
   * scheduled; a round without a post still counts as a round.
   */
  function RunPlatform(lib: seq<Template>, platform: string, numPosts: int, i: nat, total: nat,
                       mix: seq<string>, today: int, now: int, d: DayDraws, s: Progress): (r: Progress)
    requires ValidPosts(s.posts) && Distinct(s.recent)
    requires |mix| == total && s.scheduled <= total
    ensures ValidPosts(r.posts) && Distinct(r.recent)
    ensures s.scheduled <= r.scheduled <= total
    ensures |r.posts.rows| == |s.posts.rows| + (r.scheduled - s.scheduled)
    ensures Extends(s.posts, r.posts, [platform], today, now)
    ensures r.scheduled == s.scheduled ==> r.posts == s.posts && r.recent == s.recent
    ensures r.scheduled == RoundsCount(HasTemplate(lib, platform), numPosts, i, total, s.scheduled)
    decreases Max(0, numPosts - i)
  {
    if i >= numPosts || s.scheduled >= total then s
    else
      var next := Round(lib, platform, i, mix, today, now, d, s);
      var r := RunPlatform(lib, platform, numPosts, i + 1, total, mix, today, now, d, next);
      ExtendsTrans(s.posts, next.posts, r.posts, [platform], today, now);
      RoundsCountStep(HasTemplate(lib, platform), numPosts, i, total, s.scheduled, next.scheduled);
      r
  }

  /**
   * The count the rounds for one platform reach from `scheduled`, the
   * tables aside: each round adds one post when the platform has a
   * template and none otherwise.
   */
  function RoundsCount(has: bool, numPosts: int, i: nat, total: nat, scheduled: nat): nat
    decreases Max(0, numPosts - i)
  {
    if i >= numPosts || scheduled >= total then scheduled
    else RoundsCount(has, numPosts, i + 1, total, if has then scheduled + 1 else scheduled)
  }

  /** A round counts one post with a template and none without. */
  lemma RoundsCountStep(has: bool, numPosts: int, i: nat, total: nat, scheduled: nat, next: nat)
    requires i < numPosts && scheduled < total
    requires next == if has then scheduled + 1 else scheduled
    ensures RoundsCount(has, numPosts, i, total, scheduled) == RoundsCount(has, numPosts, i + 1, total, next)
  {
  }

  /**
   * The rounds for one platform schedule at most one post each; with a
   * template they schedule one each until the platform's count or the
   * day's total is reached, and without one they schedule nothing.
   */
  lemma {:induction false} RoundsCountValue(has: bool, numPosts: int, i: nat, total: nat, scheduled: nat)
    requires scheduled <= total
    ensures var c := RoundsCount(has, numPosts, i, total, scheduled);
      && scheduled <= c <= total && c - scheduled <= Max(0, numPosts - i)
      && (has ==> c == Min(total, scheduled + Max(0, numPosts - i)))
      && (!has ==> c == scheduled)
    decreases Max(0, numPosts - i)
  {
    if i < numPosts && scheduled < total {
      RoundsCountValue(has, numPosts, i + 1, total, if has then scheduled + 1 else scheduled);
    }
  }

  /** What the rounds for one platform schedule, in the terms of `RoundsCountValue`. */
  lemma RunPlatformCount(lib: seq<Template>, platform: string, numPosts: int, i: nat,
                         total: nat, mix: seq<string>, today: int, now: int, d: DayDraws, s: Progress)
    requires ValidPosts(s.posts) && Distinct(s.recent)
    requires |mix| == total && s.scheduled <= total
    ensures var r := RunPlatform(lib, platform, numPosts, i, total, mix, today, now, d, s);
      && r.scheduled - s.scheduled <= Max(0, numPosts - i)
      && (HasTemplate(lib, platform) ==> r.scheduled == Min(total, s.scheduled + Max(0, numPosts - i)))
      && (!HasTemplate(lib, platform) ==> r.scheduled == s.scheduled)
  {
    RoundsCountValue(HasTemplate(lib, platform), numPosts, i, total, s.scheduled);
  }

  /** The outer loop: each authenticated platform in turn, with the count the distribution planned for it. */
  function RunPlatforms(lib: seq<Template>, names: seq<string>, dist: map<string, int>, total: nat,
                        mix: seq<string>, today: int, now: int, d: DayDraws, s: Progress): (r: Progress)
    requires ValidPosts(s.posts) && Distinct(s.recent)
    requires |mix| == total && s.scheduled <= total
    ensures ValidPosts(r.posts) && Distinct(r.recent)
    ensures s.scheduled <= r.scheduled <= total
    ensures |r.posts.rows| == |s.posts.rows| + (r.scheduled - s.scheduled)
    ensures Extends(s.posts, r.posts, names, today, now)
    ensures r.scheduled == s.scheduled ==> r.posts == s.posts && r.recent == s.recent
    ensures r.scheduled == CountAfter(lib, names, dist, total, s.scheduled)
    decreases |names|
  {
    if |names| == 0 then s
    else
      var first := RunPlatform(lib, names[0], Planned(dist, names[0]), 0, total, mix, today, now, d, s);
      var r := RunPlatforms(lib, names[1..], dist, total, mix, today, now, d, first);
      ExtendsWiden(s.posts, first.posts, names, today, now);
      ExtendsNarrow(first.posts, r.posts, names, today, now);
      ExtendsTrans(s.posts, first.posts, r.posts, names, today, now);
      r
  }

  /**
   * The count the loops reach from `scheduled`, the tables aside: each
   * platform in turn runs its planned rounds as `RoundsCount` counts them.
   */
  function CountAfter(lib: seq<Template>, names: seq<string>, dist: map<string, int>, total: nat, scheduled: nat): nat
    decreases |names|
  {
    if |names| == 0 then scheduled
    else
      CountAfter(lib, names[1..], dist, total,
                 RoundsCount(HasTemplate(lib, names[0]), Planned(dist, names[0]), 0, total, scheduled))
  }

  lemma ExtendsNarrow(a: PostTable, b: PostTable, names: seq<string>, today: int, now: int)
    requires |names| > 0 && Extends(a, b, names[1..], today, now)
    ensures Extends(a, b, names, today, now)
  {
    forall j | |a.rows| <= j < |b.rows|
      ensures b.rows[j].platform in names
    {
      assert b.rows[j].platform in names[1..];
    }
  }

  /**
   * When every platform has a template and no plan is negative, the loops
   * schedule the planned counts until the day's total is reached.
   */
  lemma {:induction false} CountAfterComplete(lib: seq<Template>, names: seq<string>, dist: map<string, int>,
                                                total: nat, scheduled: nat)
    requires scheduled <= total
    requires forall k :: 0 <= k < |names| ==> HasTemplate(lib, names[k]) && Planned(dist, names[k]) >= 0
    ensures CountAfter(lib, names, dist, total, scheduled) == Min(total, scheduled + Sum(PlannedCounts(dist, names)))
  {
    CountAfterPlanned(lib, names, dist, total, scheduled);
    PlannedTotalIsSum(lib, names, dist);
  }

  /** The planned counts added head first, negative plans counted as none. */
  function PlannedTotal(names: seq<string>, dist: map<string, int>): nat
    decreases |names|
  {
    if |names| == 0 then 0 else Max(0, Planned(dist, names[0])) + PlannedTotal(names[1..], dist)
  }

  lemma {:induction false} CountAfterPlanned(lib: seq<Template>, names: seq<string>, dist: map<string, int>,
                                             total: nat, scheduled: nat)
    requires scheduled <= total
    requires forall k :: 0 <= k < |names| ==> HasTemplate(lib, names[k])
    ensures CountAfter(lib, names, dist, total, scheduled) == Min(total, scheduled + PlannedTotal(names, dist))
    decreases |names|
  {
    if |names| > 0 {
      assert HasTemplate(lib, names[0]);
      var a := Max(0, Planned(dist, names[0]));
      var next := RoundsCount(true, Planned(dist, names[0]), 0, total, scheduled);
      RoundsCountValue(true, Planned(dist, names[0]), 0, total, scheduled);
      assert forall k :: 0 <= k < |names[1..]| ==> names[1..][k] == names[k + 1];
      CountAfterPlanned(lib, names[1..], dist, total, next);
      CapChain(total, scheduled, a, PlannedTotal(names[1..], dist), PlannedTotal(names, dist), next,
               CountAfter(lib, names[1..], dist, total, next));
    }
  }

  lemma {:induction false} PlannedTotalIsSum(lib: seq<Template>, names: seq<string>, dist: map<string, int>)
    requires forall k :: 0 <= k < |names| ==> Planned(dist, names[k]) >= 0
    ensures PlannedTotal(names, dist) == Sum(PlannedCounts(dist, names))
    decreases |names|
  {
    if |names| > 0 {
      assert forall k :: 0 <= k < |names[1..]| ==> names[1..][k] == names[k + 1];
      PlannedTotalIsSum(lib, names[1..], dist);
      PlannedCountsCons(dist, names);
    } else {
      assert PlannedCounts(dist, names) == [];
    }
  }

  lemma PlannedCountsCons(dist: map<string, int>, names: seq<string>)
    requires |names| > 0
    ensures Sum(PlannedCounts(dist, names)) == Planned(dist, names[0]) + Sum(PlannedCounts(dist, names[1..]))
  {
    assert PlannedCounts(dist, names) == [Planned(dist, names[0])] + PlannedCounts(dist, names[1..]);
    SumCons(Planned(dist, names[0]), PlannedCounts(dist, names[1..]));
  }

  /** Capping at `total` after adding `a` and then `b` is capping once after adding both. */
  lemma CapChain(total: int, x: int, a: int, b: int, whole: int, mid: int, last: int)
    requires x <= total && a >= 0 && b >= 0 && whole == a + b
    requires mid == Min(total, x + a) && last == Min(total, mid + b)
    ensures last == Min(total, x + whole)
  {
  }

  /**
   * `generateDailySchedule`: nothing without an authenticated platform;
   * otherwise the day's total between the configured bounds, its category
   * mix, its split over the authenticated platforms in registry order, and
   * the loops. Returns the posts table and the recently used templates.
   */
  function GenerateDailySchedule(reg: Registry, lib: seq<Template>, posts: PostTable, recent: seq<string>,
                                 today: int, now: int, d: DayDraws): (r: (PostTable, seq<string>))
    requires ValidPosts(posts) && Distinct(recent)
    ensures ValidPosts(r.0) && Distinct(r.1)
    ensures |AuthenticatedPlatforms(reg)| == 0 ==> r == (posts, recent)
    ensures |r.0.rows| <= |posts.rows| + PostsPerDayMax
    ensures Extends(posts, r.0, Names(AuthenticatedPlatforms(reg)), today, now)
    ensures |r.0.rows| == |posts.rows| ==> r == (posts, recent)
  {
    if |AuthenticatedPlatforms(reg)| == 0 then (posts, recent)
    else
      var s := DayRun(reg, lib, posts, recent, today, now, d);
      (s.posts, s.recent)
  }

  /** The day's category mix: one category per post of the day's total, drawn in turn. */
  function DayMix(d: DayDraws, total: nat): (r: seq<string>)
    ensures |r| == total
  {
    var draws := seq(total, (k: int) requires k >= 0 => d.mix(k));
    assert forall k :: 0 <= k < total ==> draws[k] == d.mix(k);
    DailyContentMix(draws)
  }

  /** The generation proper, once some platform is authenticated. */
  function DayRun(reg: Registry, lib: seq<Template>, posts: PostTable, recent: seq<string>,
                  today: int, now: int, d: DayDraws): (s: Progress)
    requires ValidPosts(posts) && Distinct(recent) && |AuthenticatedPlatforms(reg)| > 0
    ensures ValidPosts(s.posts) && Distinct(s.recent)
    ensures s.scheduled <= TotalPostsToday(d.total, PostsPerDayMin, PostsPerDayMax)
    ensures |s.posts.rows| == |posts.rows| + s.scheduled
    ensures Extends(posts, s.posts, Names(AuthenticatedPlatforms(reg)), today, now)
    ensures s.scheduled == 0 ==> s.posts == posts && s.recent == recent
  {
    var total := TotalPostsToday(d.total, PostsPerDayMin, PostsPerDayMax);
    var names := Names(AuthenticatedPlatforms(reg));
    RunPlatforms(lib, names, DistributePosts(names, total), total, DayMix(d, total), today, now, d,
                 Progress(posts, recent, 0, 0))
  }

  /** In a registry with distinct names, the authenticated connectors have distinct names. */
  lemma {:induction false} AuthenticatedNamesDistinct(reg: Registry)
    requires Distinct(Names(reg))
    ensures Distinct(Names(AuthenticatedPlatforms(reg)))
    decreases |reg|
  {
    if |reg| > 0 {
      assert Names(reg[1..]) == Names(reg)[1..];
      AuthenticatedNamesDistinct(reg[1..]);
      var rest := AuthenticatedPlatforms(reg[1..]);
      if IsAuth(reg[0]) {
        forall k | 0 <= k < |rest|
          ensures rest[k].name != reg[0].name
        {
          assert rest[k] in reg[1..];
          var m :| 0 <= m < |reg[1..]| && reg[1..][m] == rest[k];
          assert Names(reg)[0] != Names(reg)[m + 1];
        }
        assert Names([reg[0]] + rest) == [reg[0].name] + Names(rest);
      }
    }
  }

  /** With a non-negative total, no platform is planned a negative count. */
  lemma PlannedNonNegative(names: seq<string>, total: int, k: nat)
    requires |names| > 0 && Distinct(names) && total >= 0 && k < |names|
    ensures Planned(DistributePosts(names, total), names[k]) >= 0
  {
    DistributeAt(names, total, k);
  }

  /**
   * When some platform is authenticated and every authenticated platform
   * has a template, the day gets exactly its drawn total of new posts,
   * between the configured bounds, whatever the table already holds.
   */
  lemma DailyScheduleComplete(reg: Registry, lib: seq<Template>, posts: PostTable, recent: seq<string>,
                              today: int, now: int, d: DayDraws)
    requires ValidPosts(posts) && Distinct(recent) && Distinct(Names(reg))
    requires |AuthenticatedPlatforms(reg)| > 0
    requires forall a :: a in AuthenticatedPlatforms(reg) ==> HasTemplate(lib, a.name)
    ensures var added := |GenerateDailySchedule(reg, lib, posts, recent, today, now, d).0.rows| - |posts.rows|;
      added == TotalPostsToday(d.total, PostsPerDayMin, PostsPerDayMax)
      && PostsPerDayMin <= added <= PostsPerDayMax
  {
    DayRunComplete(reg, lib, posts, recent, today, now, d);
    assert GenerateDailySchedule(reg, lib, posts, recent, today, now, d).0
      == DayRun(reg, lib, posts, recent, today, now, d).posts;
  }

  lemma DayRunComplete(reg: Registry, lib: seq<Template>, posts: PostTable, recent: seq<string>,
                       today: int, now: int, d: DayDraws)
    requires ValidPosts(posts) && Distinct(recent) && Distinct(Names(reg))
    requires |AuthenticatedPlatforms(reg)| > 0
    requires forall a :: a in AuthenticatedPlatforms(reg) ==> HasTemplate(lib, a.name)
    ensures DayRun(reg, lib, posts, recent, today, now, d).scheduled
      == TotalPostsToday(d.total, PostsPerDayMin, PostsPerDayMax)
  {
    var auth := AuthenticatedPlatforms(reg);
    var total := TotalPostsToday(d.total, PostsPerDayMin, PostsPerDayMax);
    var names := Names(auth);
    AuthenticatedNamesDistinct(reg);
    forall k | 0 <= k < |names|
      ensures HasTemplate(lib, names[k])
    {
      assert auth[k] in auth;
    }
    DayComplete(lib, names, total, DayMix(d, total), today, now, d, Progress(posts, recent, 0, 0));
  }

  /** Distributing a day over platforms that all have templates schedules the whole day. */
  lemma DayComplete(lib: seq<Template>, names: seq<string>, total: nat, mix: seq<string>,
                    today: int, now: int, d: DayDraws, s: Progress)
    requires ValidPosts(s.posts) && Distinct(s.recent) && s.scheduled == 0
    requires |names| > 0 && Distinct(names) && |mix| == total
    requires forall k :: 0 <= k < |names| ==> HasTemplate(lib, names[k])
    ensures RunPlatforms(lib, names, DistributePosts(names, total), total, mix, today, now, d, s).scheduled == total
  {
    var dist := DistributePosts(names, total);
    DistributionSumsToTotal(names, total);
    forall k | 0 <= k < |names|
      ensures Planned(dist, names[k]) >= 0
    {
      PlannedNonNegative(names, total, k);
    }
    PlanComplete(lib, names, dist, total, mix, today, now, d, s);
  }

  lemma PlanComplete(lib: seq<Template>, names: seq<string>, dist: map<string, int>, total: nat, mix: seq<string>,
                     today: int, now: int, d: DayDraws, s: Progress)
    requires ValidPosts(s.posts) && Distinct(s.recent) && s.scheduled == 0 && |mix| == total
    requires forall k :: 0 <= k < |names| ==> HasTemplate(lib, names[k]) && Planned(dist, names[k]) >= 0
    requires Sum(PlannedCounts(dist, names)) == total
    ensures RunPlatforms(lib, names, dist, total, mix, today, now, d, s).scheduled == total
  {
    CountAfterComplete(lib, names, dist, total, 0);
    var c := CountAfter(lib, names, dist, total, 0);
    assert c == total;
  }

  /** Some row is scheduled on `day` (`COUNT(*) ... WHERE DATE(scheduled_time) = today` is not 0). */
  predicate HasPostsOn(rows: seq<Post>, day: int)
  {
    exists i :: 0 <= i < |rows| && DayOf(rows[i].scheduledTime) == day
  }

  /** `ensureScheduleExists`: generates the day's schedule only when nothing is scheduled on `today`. */
  function EnsureScheduleExists(reg: Registry, lib: seq<Template>, posts: PostTable, recent: seq<string>,
                                today: int, now: int, d: DayDraws): (r: (PostTable, seq<string>))
    requires ValidPosts(posts) && Distinct(recent)
    ensures ValidPosts(r.0) && Distinct(r.1)
    ensures HasPostsOn(posts.rows, today) ==> r == (posts, recent)
    ensures |posts.rows| <= |r.0.rows| && r.0.rows[..|posts.rows|] == posts.rows
    ensures |r.0.rows| > |posts.rows| ==> !HasPostsOn(posts.rows, today) && HasPostsOn(r.0.rows, today)
  {
    if HasPostsOn(posts.rows, today) then (posts, recent)
    else
      var r := GenerateDailySchedule(reg, lib, posts, recent, today, now, d);
      assert |r.0.rows| > |posts.rows| ==> DayOf(r.0.rows[|posts.rows|].scheduledTime) == today;
      r
  }

  /** Making sure of a schedule twice in a row with the same draws does no more than once. */
  lemma EnsureScheduleIdempotent(reg: Registry, lib: seq<Template>, posts: PostTable, recent: seq<string>,
                                 today: int, now: int, d: DayDraws)
    requires ValidPosts(posts) && Distinct(recent)
    ensures var once := EnsureScheduleExists(reg, lib, posts, recent, today, now, d);
      EnsureScheduleExists(reg, lib, once.0, once.1, today, now, d) == once
  {
  }

  /** The four recurring jobs and their cron expressions. */
  const JobSchedule: map<string, string> := map[
    "daily_generation" := "1 0 * * *",
    "post_publisher" := "*/5 * * * *",
    "engagement_tracker" := "0 * * * *",
    "daily_analytics" := "55 23 * * *"]

  /** The scheduler's own state: whether it runs, and its registered jobs. */
  datatype Runtime = Runtime(running: bool, jobs: map<string, string>)

  const Stopped: Runtime := Runtime(false, map[])

  /** A running scheduler has exactly the four jobs, a stopped one none. */
  predicate Consistent(rt: Runtime)
  {
    if rt.running then rt.jobs == JobSchedule else rt.jobs == map[]
  }

  /** The data the scheduler's jobs work on: the posts table and the generator's recently used templates. */
  datatype World = World(posts: PostTable, recent: seq<string>)

  /**
   * `start`: a running scheduler is left as it is; otherwise the four jobs
   * are registered, the day's schedule is made sure of, and the scheduler
   * is marked running.
   */
  function Start(rt: Runtime, w: World, reg: Registry, lib: seq<Template>, today: int, now: int, d: DayDraws)
    : (r: (Runtime, World))
    requires ValidPosts(w.posts) && Distinct(w.recent)
    ensures r.0.running
    ensures ValidPosts(r.1.posts) && Distinct(r.1.recent)
    ensures rt.running ==> r == (rt, w)
    ensures !rt.running ==> forall k :: k in JobSchedule ==> k in r.0.jobs && r.0.jobs[k] == JobSchedule[k]
    ensures Consistent(rt) ==> Consistent(r.0)
    ensures HasPostsOn(w.posts.rows, today) ==> r.1 == w
  {
    if rt.running then (rt, w)
    else
      var e := EnsureScheduleExists(reg, lib, w.posts, w.recent, today, now, d);
      Registered(rt.jobs);
      (Runtime(true, rt.jobs + JobSchedule), World(e.0, e.1))
  }

  /** Registering the jobs over any earlier ones leaves each of them with its schedule. */
  lemma Registered(jobs: map<string, string>)
    ensures forall k :: k in JobSchedule ==> k in jobs + JobSchedule && (jobs + JobSchedule)[k] == JobSchedule[k]
    ensures jobs == map[] ==> jobs + JobSchedule == JobSchedule
  {
  }

  /** `stop`: every job is cleared and the scheduler is marked stopped. */
  function Stop(rt: Runtime): (r: Runtime)
    ensures !r.running && |r.jobs| == 0
    ensures Consistent(r)
  {
    Stopped
  }

  /** Starting twice is starting once; a stopped scheduler restarts with the same four jobs. */
  lemma StartIdempotent(rt: Runtime, w: World, reg: Registry, lib: seq<Template>, today: int, now: int, d: DayDraws)
    requires ValidPosts(w.posts) && Distinct(w.recent)
    ensures var once := Start(rt, w, reg, lib, today, now, d);
      Start(once.0, once.1, reg, lib, today, now, d) == once
    ensures Start(Stop(rt), w, reg, lib, today, now, d).0 == Runtime(true, JobSchedule)
  {
    assert map[] + JobSchedule == JobSchedule;
  }
  /** The posts created after `since`, in table order. */
  function CreatedSince(rows: seq<Post>, since: int): (r: seq<Post>)
    ensures forall p :: p in r <==> p in rows && p.createdAt > since
    ensures |r| <= |rows|
  {
    if |rows| == 0 then []
    else
      var rest := CreatedSince(rows[..|rows| - 1], since);
      var p := rows[|rows| - 1];
      assert rows == rows[..|rows| - 1] + [p];
      if p.createdAt > since then rest + [p] else rest
  }

  /** The sort key of `ORDER BY created_at DESC`. */
  function NewestFirst(p: Post): int { -p.createdAt }

  /** How far back the generator looks for recently used posts. */
  const RecentLookback: int := 7 * MinutesPerDay

  /**
   * `top` is the newest `min(10, |recent|)` of `recent`, newest first:
   * every recent post left out is no newer than any post kept.
   */
  ghost predicate NewestTop(recent: seq<Post>, top: seq<Post>)
  {
    && |top| == Min(RecentWindow, |recent|)
    && multiset(top) <= multiset(recent)
    && SortedBy(top, NewestFirst)
    && forall p, q :: p in multiset(recent) - multiset(top) && q in top ==> p.createdAt <= q.createdAt
  }

  /** `types` lists, position by position, the `post_type` of the newest posts `top` of `recent`. */
  ghost predicate NewestListing(recent: seq<Post>, top: seq<Post>, types: seq<string>)
  {
    && NewestTop(recent, top)
    && |types| == |top|
    && forall k :: 0 <= k < |top| ==> types[k] == top[k].postType
  }

  /** `ORDER BY created_at DESC LIMIT 10` over the recent posts. */
  function Newest(recent: seq<Post>): (top: seq<Post>)
    ensures NewestTop(recent, top)
  {
    var n := Min(RecentWindow, |recent|);
    var ordered := SortBy(recent, NewestFirst);
    PrefixSorted(ordered, n);
    PrefixSub(ordered, n);
    NewestPrefix(ordered, n);
    ordered[..n]
  }

  /** The `post_type` column of the rows, in order. */
  function TypesOf(top: seq<Post>): (types: seq<string>)
    ensures |types| == |top| && forall k :: 0 <= k < |top| ==> types[k] == top[k].postType
  {
    seq(|top|, k requires 0 <= k < |top| => top[k].postType)
  }

  /**
   * The `post_type` of the newest posts created after `since`, newest
   * first, at most the window's size of them: each comes from such a post,
   * and when they all fit the window every such post's type is there.
   */
  function SeedTypes(rows: seq<Post>, since: int): (types: seq<string>)
    ensures |types| <= RecentWindow
    ensures forall x :: x in types ==> exists p :: p in rows && p.createdAt > since && p.postType == x
    ensures |CreatedSince(rows, since)| <= RecentWindow ==>
      forall p :: p in rows && p.createdAt > since ==> p.postType in types
    ensures exists top :: NewestListing(CreatedSince(rows, since), top, types)
  {
    var top := Newest(CreatedSince(rows, since));
    var types := TypesOf(top);
    TopIsRecent(rows, since, top);
    SeedTypesRecent(rows, since, top, types);
    SeedTypesComplete(rows, since, top, types);
    assert NewestListing(CreatedSince(rows, since), top, types);
    types
  }

  /** A prefix of a newest-first sequence is newest first. */
  lemma PrefixSorted(ordered: seq<Post>, n: nat)
    requires n <= |ordered| && SortedBy(ordered, NewestFirst)
    ensures SortedBy(ordered[..n], NewestFirst)
  {
    var top := ordered[..n];
    forall i, j | 0 <= i < j < |top|
      ensures NewestFirst(top[i]) <= NewestFirst(top[j])
    {
      assert top[i] == ordered[i] && top[j] == ordered[j];
    }
  }

  /** A prefix takes part of the posts of the whole. */
  lemma PrefixSub(ordered: seq<Post>, n: nat)
    requires n <= |ordered|
    ensures multiset(ordered[..n]) <= multiset(ordered)
  {
    assert ordered == ordered[..n] + ordered[n..];
  }

  /** The posts a prefix leaves out are those after it. */
  lemma PrefixRest(ordered: seq<Post>, n: nat)
    requires n <= |ordered|
    ensures multiset(ordered) - multiset(ordered[..n]) == multiset(ordered[n..])
  {
    assert ordered == ordered[..n] + ordered[n..];
  }

  /**
   * The first `n` posts of a newest-first sequence are its `n` newest:
   * no post after them is newer than any of them.
   */
  lemma NewestPrefix(ordered: seq<Post>, n: nat)
    requires n <= |ordered| && SortedBy(ordered, NewestFirst)
    ensures forall p, q :: p in multiset(ordered) - multiset(ordered[..n]) && q in ordered[..n] ==>
      p.createdAt <= q.createdAt
  {
    PrefixRest(ordered, n);
    forall p: Post, q: Post | p in multiset(ordered[n..]) && q in ordered[..n]
      ensures p.createdAt <= q.createdAt
    {
      var j :| n <= j < |ordered| && ordered[j] == p;
      var i :| 0 <= i < n && ordered[i] == q;
    }
  }

  /** The recent posts a seed keeps, in newest-first order, as the set built from them. */
  ghost predicate NewestSeed(recent: seq<Post>, r: seq<string>)
  {
    exists types, top :: NewestListing(recent, top, types) && r == Dedup(types)
  }

  /**
   * The generator's start-up load of its recently used set: the `post_type`
   * of the posts created in the last seven days, newest first, at most the
   * window's size of them, without repetitions.
   */
  function LoadRecentlyUsed(rows: seq<Post>, now: int): (r: seq<string>)
    ensures Distinct(r) && |r| <= RecentWindow
    ensures forall x :: x in r ==>
      exists p :: p in rows && p.createdAt > now - RecentLookback && p.postType == x
    ensures |CreatedSince(rows, now - RecentLookback)| <= RecentWindow ==>
      forall p :: p in rows && p.createdAt > now - RecentLookback ==> p.postType in r
    ensures NewestSeed(CreatedSince(rows, now - RecentLookback), r)
  {
    Dedup(SeedTypes(rows, now - RecentLookback))
  }

  /** The newest recent posts are recent posts of the table. */
  lemma TopIsRecent(rows: seq<Post>, since: int, top: seq<Post>)
    requires NewestTop(CreatedSince(rows, since), top)
    ensures forall p :: p in top ==> p in rows && p.createdAt > since
  {
    var recent := CreatedSince(rows, since);
    forall p | p in top
      ensures p in rows && p.createdAt > since
    {
      assert p in multiset(top);
      assert p in multiset(recent);
    }
  }

  /** The types of recent posts come from recent posts. */
  lemma SeedTypesRecent(rows: seq<Post>, since: int, top: seq<Post>, types: seq<string>)
    requires forall p :: p in top ==> p in rows && p.createdAt > since
    requires |types| == |top| && forall k :: 0 <= k < |top| ==> types[k] == top[k].postType
    ensures forall x :: x in types ==> exists p :: p in rows && p.createdAt > since && p.postType == x
  {
    forall x | x in types
      ensures exists p :: p in rows && p.createdAt > since && p.postType == x
    {
      var k :| 0 <= k < |types| && types[k] == x;
      assert top[k] in top;
    }
  }

  /** When the recent posts fit the window, every one of their types is kept. */
  lemma SeedTypesComplete(rows: seq<Post>, since: int, top: seq<Post>, types: seq<string>)
    requires NewestTop(CreatedSince(rows, since), top)
    requires |types| == |top| && forall k :: 0 <= k < |top| ==> types[k] == top[k].postType
    ensures |CreatedSince(rows, since)| <= RecentWindow ==>
      forall p :: p in rows && p.createdAt > since ==> p.postType in types
  {
    var recent := CreatedSince(rows, since);
    if |recent| <= RecentWindow {
      assert |multiset(top)| == |multiset(recent)|;
      MultisetFull(multiset(top), multiset(recent));
      forall p | p in rows && p.createdAt > since
        ensures p.postType in types
      {
        assert p in multiset(recent);
        assert p in top;
        var k :| 0 <= k < |top| && top[k] == p;
        assert types[k] == p.postType;
      }
    }
  }

  /** A sub-multiset of the same size is the whole multiset. */
  lemma MultisetFull(a: multiset<Post>, b: multiset<Post>)
    requires a <= b && |a| == |b|
    ensures a == b
  {
    var d := b - a;
    assert b == a + d;
    assert |d| == 0;
  }

  /**
   * The posts table stores a category in `post_type`, so a seed loaded from
   * posts the scheduler wrote never holds a template id: the recently used
   * set starts out blocking no template. (The library's ids are those of
   * its metadata rows, by `LibraryMatchesMetadata`.)
   */
  lemma SeedBlocksNoTemplate(rows: seq<Post>, now: int, i: nat)
    requires forall k :: 0 <= k < |rows| ==> rows[k].postType in Categories
    requires i < |TemplateMetas|
    ensures TemplateMetas[i].id !in LoadRecentlyUsed(rows, now)
  {
    SeedIsCategories(rows, now);
    MetaCategories();
  }

  /** A seed loaded from rows whose `post_type` is a category holds only categories. */
  lemma SeedIsCategories(rows: seq<Post>, now: int)
    requires forall k :: 0 <= k < |rows| ==> rows[k].postType in Categories
    ensures forall x :: x in LoadRecentlyUsed(rows, now) ==> x in Categories
  {
    forall x | x in LoadRecentlyUsed(rows, now)
      ensures x in Categories
    {
      var p :| p in rows && p.createdAt > now - RecentLookback && p.postType == x;
    }
  }
}
