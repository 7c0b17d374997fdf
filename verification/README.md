# mkassistant marketing automation, modelled in Dafny

mkassistant is a TypeScript marketing assistant. Its post scheduler plans
each day's social-media posts across the authenticated platforms. A cron
sweep publishes due posts through the platform connectors, another sweep
refreshes engagement counters, and a nightly job adds the day's totals to
an analytics table. Around that core sit:

- a content generator, with its template and platform tables;
- the SQLite statements that define the store;
- the platform registry;
- two lead-scoring schemes and the lead funnel;
- an SEO checker;
- e-mail templates and campaign sending;
- the analytics report.

This project models those pieces as pure functions over immutable data and
proves properties about them:

- Tables are sequences of records. Each SQL statement is a function from
  one table to the next.
- Time is a whole number of minutes, and a day is 1440 of them.
- Every `Math.random()` draw is a parameter in `[0, 1)`.
- Every network call is an oracle parameter (a platform connector's post
  or metrics call, a SendGrid delivery).

The scheduler's cron jobs become plain function applications, and its
loops become recursive folds.

| file | module | models |
|---|---|---|
| common.dfy | Common | `Option`, sums, `Distinct`, minutes and days |
| text.dfy | Text | JavaScript string operations: `indexOf`, `includes`, first-occurrence `replace` with its `$` patterns, `toLowerCase`, `split`/`join`, `slice`/`substring`, decimal printing and parsing |
| sorting.dfy | Sorting | a sort by key (SQL `ORDER BY`, `Array.sort`): a permutation in key order |
| templates.dfy | Templates | `contentTemplates` and `platformSpecs` |
| generator.dfy | Generator | the content generator |
| platforms.dfy | Platforms | `BasePlatform` and `PlatformManager` |
| store.dfy | Store | the posts, analytics and leads tables and their statements |
| allocation.dfy | Allocation | the day's total, `distributePosts`, `calculatePostTime` |
| scheduler.dfy | Scheduler | `generateDailySchedule`, `ensureScheduleExists`, `start`/`stop`, the generator's start-up seed |
| sweeps.dfy | Sweeps | `publishScheduledPosts`, `updateEngagementMetrics`, `aggregateDailyAnalytics` |
| lead_scoring.dfy | LeadScoring | the capped weighted lead score and its trackers |
| lead_manager.dfy | LeadManager | the four-factor lead score, the funnel and nurturing |
| seo.dfy | Seo | `analyzeSEO`, meta descriptions, title variations, template choice |
| email.dfy | Email | the e-mail templates, placeholder filling, campaigns |
| analytics.dfy | Analytics | trend, report arithmetic, recommendations, the CSV export |

## Model

| member | source | states |
|---|---|---|
| Allocation.TotalPostsToday | src/scheduler/index.ts:105-108 | for any draw in `[0, 1)` and `min <= max`, the day's total lies between `min` and `max` |
| Allocation.SharePercent | src/scheduler/index.ts:167-179 | a platform's share is between 10 and 30 percent, and a platform missing from the priority table gets 10 |
| Allocation.Quota | src/scheduler/index.ts:180 | a platform's quota is at least one post, and at most `max(1, total)` for a non-negative total |
| Allocation.Allot | src/scheduler/index.ts:175-186 | the loop stops early only once the budget is spent; the settings plus the leftover equal the budget; with budget left every setting is at least 1 and at most the budget |
| Allocation.DistributePosts | src/scheduler/index.ts:163-195 | the first platform always has an entry, and only the given platforms do |
| Allocation.AssignAt | src/scheduler/index.ts:177-182 | for distinct names, the map gives each platform the loop's setting for it, or no entry (read as 0) when the loop stopped before it |
| Allocation.DistributeAt | src/scheduler/index.ts:177-192 | a platform's planned count is its loop setting (0 if never reached), plus the positive leftover for the first platform only |
| Allocation.DistributionSumsToTotal | src/scheduler/index.ts:175-192 | for distinct platforms and a non-negative total, the planned counts add up to exactly the total |
| Allocation.DistributionBounds | src/scheduler/index.ts:177-186 | with a total of at least 1, every platform that has an entry is planned between 1 and the total |
| Allocation.LeftoverToFirst | src/scheduler/index.ts:189-192 | the first platform gets its loop setting plus whatever budget remained |
| Allocation.SlotTime | src/scheduler/index.ts:200-216 | a slot lies at `60*h + m + offset` minutes into the day, where `h:m` is the platform's best time for the round; the slot stays within that day |
| Allocation.Jitter | src/scheduler/index.ts:211 | the random offset runs from -30 to 29 minutes, not ±30 |
| Scheduler.HasTemplateMeans | src/content/generator.ts:52-54 | a platform can get a post exactly when some template lists it |
| Scheduler.Round | src/scheduler/index.ts:126-148 | one round schedules a post exactly when the platform has a template; a round without a post leaves the table, the recently-used set and the category index unchanged; a new row is pending, on today, at the round's slot |
| Scheduler.RunPlatform | src/scheduler/index.ts:122-150 | one platform's rounds only append rows for that platform on today; the count never passes the day's total |
| Scheduler.RoundsCountValue | src/scheduler/index.ts:126 | with a template, a platform's rounds reach `min(total, scheduled + numPosts)`; without one they schedule nothing |
| Scheduler.RunPlatformCount | src/scheduler/index.ts:126-150 | the rows a platform's rounds add, in terms of its planned count and the day's total |
| Scheduler.RunPlatforms | src/scheduler/index.ts:122-151 | the outer loop only appends rows for authenticated platforms; its count is what `CountAfter` predicts and never passes the total |
| Scheduler.CountAfterComplete | src/scheduler/index.ts:122-151 | when every platform has a template and no plan is negative, the loops reach `min(total, planned sum)` |
| Scheduler.GenerateDailySchedule | src/scheduler/index.ts:94-158 | with no authenticated platform nothing changes; otherwise rows are only appended, at most the configured maximum of them, each pending, on today, for an authenticated platform; no same-day guard |
| Scheduler.DayMix | src/scheduler/index.ts:113 | the category mix has one entry per post of the day's total |
| Scheduler.DayRun | src/scheduler/index.ts:105-151 | the posts scheduled never exceed the drawn total |
| Scheduler.AuthenticatedNamesDistinct | src/platforms/index.ts:75-77 | the authenticated platforms of a registry with distinct names have distinct names |
| Scheduler.PlannedNonNegative | src/scheduler/index.ts:175-192 | with a non-negative total, no platform is planned a negative count |
| Scheduler.DailyScheduleComplete | src/scheduler/index.ts:99-151 | when every authenticated platform has a template, the day gets exactly its drawn total of new posts, between 3 and 6 |
| Scheduler.DayComplete | src/scheduler/index.ts:116-151 | splitting a day over platforms that all have templates schedules the whole day |
| Scheduler.EnsureScheduleExists | src/scheduler/index.ts:74-85 | a day that already has a post scheduled is left alone; otherwise rows are only appended, and when any are added the day now has posts |
| Scheduler.EnsureScheduleIdempotent | src/scheduler/index.ts:74-85 | making sure of today's schedule twice with the same draws does no more than once |
| Scheduler.Start | src/scheduler/index.ts:21-56 | starting a running scheduler changes nothing; otherwise the four jobs are registered with their cron expressions and the scheduler runs; a day with posts keeps its table |
| Scheduler.Registered | src/scheduler/index.ts:28-49 | registering the jobs over any earlier set leaves each of the four with its own cron expression |
| Scheduler.Stop | src/scheduler/index.ts:61-69 | stopping clears every job and marks the scheduler stopped |
| Scheduler.StartIdempotent | src/scheduler/index.ts:21-69 | starting twice is starting once, and a stopped scheduler restarts with exactly the four jobs |
| Scheduler.CreatedSince | src/content/generator.ts:26-28 | the filter keeps exactly the posts created after the cut-off |
| Scheduler.SeedTypes | src/content/generator.ts:25-30 | the `post_type` of the `min(10, n)` newest of the `n` posts created after the cut-off, position by position, newest first; a recent post left out is no newer than any post kept; each type is that of a recent post, and every recent post's type is there when they all fit |
| Scheduler.Newest | src/content/generator.ts:28-29 | `ORDER BY created_at DESC LIMIT 10`: `min(10, n)` of the `n` recent posts, newest first, and none left out is newer than one kept |
| Scheduler.NewestPrefix | src/content/generator.ts:28-29 | the first `k` posts of a newest-first sequence are its `k` newest: no post after them is newer than any of them |
| Scheduler.LoadRecentlyUsed | src/content/generator.ts:24-35 | the start-up seed is the newest-first listing of the last seven days' posts (at most 10), with repeated types dropped: at most 10 distinct entries, each the `post_type` of a post from the last seven days, and all of them when they fit |
| Scheduler.SeedIsCategories | src/content/generator.ts:26-35 | a seed loaded from rows whose `post_type` is a category holds only categories |
| Scheduler.SeedBlocksNoTemplate | src/scheduler/index.ts:140-146 | the scheduler stores a category in `post_type`, so the start-up seed never holds the id of any template in the library and blocks none of them |
| Store.InsertPost | src/database/index.ts:159-162 | a new row at the end with the next id and the given fields: no publication time, external id or error, zero counters; earlier rows unchanged |
| Store.DueFilter | src/database/index.ts:164-166 | keeps exactly the pending rows scheduled at or before now |
| Store.DuePosts | src/database/index.ts:164-168 | returns exactly the due rows, each once, in non-decreasing scheduled time |
| Store.InsertedPendingIsDue | src/database/index.ts:159-168 | a pending row inserted for a time already passed is returned as due |
| Store.PostById | src/database/index.ts:173 | finds the row with the id, or reports that none has it |
| Store.UpdatePostStatus | src/database/index.ts:170-174 | the row with the id gets status, publication time, external id and error together, plus `updated_at`; every other field and every other row is unchanged |
| Store.UpdatePostEngagement | src/database/index.ts:176-180 | the row with the id gets the four counters and `updated_at`; nothing else changes |
| Store.EngagementKeepsPublication | src/database/index.ts:176-180 | recording engagement never changes a row's status, publication time, external id, content or slot |
| Store.FindDay | src/database/index.ts:71 | finds the row for a (date, platform) key, or reports that none has it |
| Store.UpsertAnalytics | src/database/index.ts:183-192 | keys stay unique; a new key is appended with clicks and conversions at 0; an existing key's row has the totals added and no other row changes |
| Store.FindDayUnique | src/database/index.ts:71 | in a table with unique keys, each row is the one found for its key |
| Store.UpsertTwiceAddsTwice | src/database/index.ts:186-191 | applying the same totals twice adds them twice, so the upsert is not idempotent |
| Store.FindLead | src/database/index.ts:97 | finds the lead with the e-mail, or reports that none has it |
| Store.InsertLead | src/database/index.ts:229-235 | the flag is set exactly for a new e-mail, which gets a `new` row at the end with the next id and the id counter moves on; a known e-mail only has its last interaction and `updated_at` refreshed, every other row unchanged |
| Store.InsertLeadKeepsExisting | src/database/index.ts:232-234 | capturing a known e-mail again keeps its name, source, interest, status and notes |
| Store.ChangeLead | src/database/index.ts:94-108 | writing one lead keeps ids and e-mails unique and every other row unchanged |
| Sweeps.AppliedIdempotent | src/database/index.ts:170-180 | each statement writes fixed values: running it twice is running it once, and it keeps the row's id |
| Sweeps.Execute | src/database/index.ts:170-180 | a statement changes only the row with its id |
| Sweeps.Sweep | src/scheduler/index.ts:232-234 | a sweep gives each row of the batch its own statement, whatever the batch order; rows outside the batch are untouched |
| Sweeps.PublishChange | src/scheduler/index.ts:244-296 | exactly one status update per post: "Platform not available" for a missing connector; "Platform not authenticated" with no network call; published with time and id and no error on success; otherwise failed with no time or id and the error text or "Unknown error"; Instagram without media always fails |
| Sweeps.PublishScheduledPosts | src/scheduler/index.ts:222-239 | every due row gets its status update, and no other row changes |
| Sweeps.PublishLeavesNothingDue | src/scheduler/index.ts:222-297 | after the sweep no row is due, and every formerly due row is published or failed |
| Sweeps.InstagramNeverPublished | src/scheduler/index.ts:263 | a due Instagram post always fails, because the scheduler sends it without media |
| Sweeps.Candidates | src/scheduler/index.ts:305-310 | keeps exactly the rows published in the last seven days that have an external id |
| Sweeps.EngagementChange | src/scheduler/index.ts:314-334 | a row's counters are written exactly when its connector exists, is authenticated and returns metrics, and then with those metrics |
| Sweeps.UpdateEngagementMetrics | src/scheduler/index.ts:302-343 | each candidate row gets its engagement update; no other row changes |
| Sweeps.EngagementTouchesCountersOnly | src/scheduler/index.ts:302-343 | the engagement sweep keeps every row's content, platform, status, times, external id and error; a candidate whose connector answered carries those metrics |
| Sweeps.DayTotals | src/scheduler/index.ts:356-367 | the count is the number of rows published on that platform that day; no such row gives all-zero totals |
| Sweeps.UpsertRowFor | src/database/index.ts:183-192 | the upsert sets the row of its own key and leaves every other key's row unchanged |
| Sweeps.AggregateDailyAnalytics | src/scheduler/index.ts:348-387 | for each of the five platforms, that day's row is its aggregate; every other row is unchanged |
| Sweeps.AggregationCounts | src/scheduler/index.ts:369-378 | a platform with no publication that day keeps its row; one with `n` publications gets exactly `n` added to its post count |
| Templates.SpecFor | src/content/templates.ts:281-308 | exactly the five platforms have a specification; only Instagram requires an image; every hashtag allowance is at most 0 and every limit at least 280 |
| Templates.SpecNumbers | src/content/templates.ts:282-307 | the limits are 280, 3000, 63206, 2200 and 40000, and the hashtag allowances evaluate to -2, -2, -1, -3 and 0, for twitter, linkedin, facebook, instagram and reddit |
| Templates.BestTimesDaytime | src/content/templates.ts:285-306 | every platform has at least one best time, and each is a whole hour between 6:00 and 21:00 |
| Templates.TemplateIdsDistinct | src/content/templates.ts:12-278 | the thirty template ids are pairwise distinct |
| Templates.EveryTemplateListsAPlatform | src/content/templates.ts:12-278 | every template lists at least one platform and has a non-empty id |
| Templates.InstagramOnlyCasual | src/content/templates.ts:234-241 | a template lists instagram exactly when it is `casual_motivation`, so every Instagram post is of category `casual` |
| Templates.IdsAreNotCategories | src/content/templates.ts:12-278 | no template id equals any template's category |
| Templates.EverySpecPlatformHasTemplate | src/content/templates.ts:12-278 | each of the five platforms with a specification is listed by some template |
| Generator.PickIndex | src/content/generator.ts:80 | `Math.floor(u * n)` is a valid index for a draw in `[0, 1)` |
| Generator.Dedup | src/content/generator.ts:33-35 | `new Set(items)` keeps each item once, in order of first appearance, and no others |
| Generator.Remember | src/content/generator.ts:86-92 | the set stays duplicate-free and gains the chosen id; only the oldest entry can be evicted, and only when the set outgrew the window |
| Generator.RememberBounded | src/content/generator.ts:15 | with non-empty ids the recently-used set never holds more than 10 entries |
| Generator.Pool | src/content/generator.ts:52-72 | the pool lists only templates for the platform; it is empty exactly when no template lists the platform; it honours the preferred category when the platform has one of it; it avoids recently used templates whenever a fresh candidate exists |
| Generator.Shuffle | src/content/generator.ts:150 | the shuffle is a permutation of the hashtags |
| Generator.SelectHashtags | src/content/generator.ts:144-152 | all hashtags when they fit; otherwise `slice(0, k)` of a permutation, whose length follows JavaScript's negative-end rule; never a tag the template lacks |
| Generator.BuildPost | src/content/generator.ts:106-139 | the post keeps platform, category and the full hashtag list; it has media for an image or video template or on Instagram; it never exceeds the platform's limit, and when cut it is exactly the limit long and ends in `...` |
| Generator.DraftStartsWithBody | src/content/generator.ts:107-125 | the draft opens with the template body, and without hashtags it is body, blank line, call-to-action |
| Generator.HashtagCount | src/content/generator.ts:115-125 | on a platform with a spec other than reddit a post keeps `max(0, n + allowance)` of `n` hashtags; without a spec it keeps at most 3 |
| Generator.TwitterKeepsTwoOfFour | src/content/generator.ts:118-121 | a Twitter post from a four-hashtag template carries two of them |
| Generator.GeneratePost | src/content/generator.ts:46-101 | no post exactly when no template lists the platform, and then nothing changes; otherwise the post is built from a pool template for the platform, which is remembered as used |
| Generator.FreshTemplateChosen | src/content/generator.ts:66-72 | when some template for the platform is not recently used, the chosen one is not recently used |
| Generator.JsRem | src/content/generator.ts:191 | JavaScript's `%` takes the sign of the dividend |
| Generator.OptimalPostTime | src/content/generator.ts:184-192 | a platform without a spec gets `09:00`; otherwise one of its best times for any non-negative index; every time returned is a daytime whole hour |
| Generator.OptimalPostTimeCycles | src/content/generator.ts:190-191 | the best times repeat with the length of the list |
| Generator.CumulativeTotal | src/content/generator.ts:199-207 | the seven category weights add up to 1 |
| Generator.MixCategory | src/content/generator.ts:212-222 | a draw gives the first category whose running total reaches it |
| Generator.MixCategoryShare | src/content/generator.ts:216-221 | a draw inside a category's share of `[0, 1)` gives that category |
| Generator.DailyContentMix | src/content/generator.ts:197-226 | the mix has one category per draw, each the category of its draw |
| Generator.MixCategoriesHaveTemplates | src/content/generator.ts:199-207 | each of the seven mix categories has at least one template in the library |
| Generator.Stats | src/content/generator.ts:236-237 | the statistics count every template once |
| Generator.StatsCount | src/content/generator.ts:242-251 | each platform or category tally equals the number of templates it counts, and there is a tally only for keys that occur |
| Platforms.NewAdapter | src/platforms/base.ts:24-28 | a new connector keeps the name and credentials it was given and is not authenticated |
| Platforms.ConfiguredIgnoresAuth | src/platforms/base.ts:49-51 | being configured means no credential value is empty (vacuously true for none), and it never depends on the authentication state |
| Platforms.InitialRegistry | src/platforms/index.ts:17-39 | the registry holds exactly twitter, linkedin, facebook, instagram, reddit in that order, none authenticated |
| Platforms.GetPlatform | src/platforms/index.ts:68-70 | an unregistered name gives nothing; a registered one gives a connector of that name |
| Platforms.GetPlatformAt | src/platforms/index.ts:68-70 | with distinct names, looking a connector's name up finds that connector |
| Platforms.AuthenticatedPlatforms | src/platforms/index.ts:75-77 | the list holds exactly the authenticated connectors; an authenticated first connector (twitter) comes first |
| Platforms.AuthenticatedKeepsOrder | src/platforms/index.ts:75-77 | the authenticated list is a subsequence of the registry, so registry order is kept |
| Platforms.ReadyIff | src/platforms/index.ts:89-92 | a name is ready exactly when its connector is registered, configured and authenticated |
| Platforms.UnknownNotReady | src/platforms/index.ts:89-92 | an unregistered name is never ready |
| Platforms.AuthenticateAll | src/platforms/index.ts:44-63 | one entry per registered platform, in order; true exactly for a configured connector whose login succeeded; an unconfigured connector is untouched; a throwing login reports false |
| Platforms.AuthenticateFromScratch | src/platforms/index.ts:44-63 | starting from the fresh registry, the authenticated connectors are exactly the configured ones whose login succeeded |
| Platforms.AdapterPost | src/platforms/instagram.ts:45-58 | an unauthenticated connector refuses without a network call; Instagram refuses a post without media; success only with the network's post id and no error |
| Platforms.AdapterEngagement | src/platforms/facebook.ts:79-83 | an unauthenticated connector returns no metrics; otherwise what the network returned |
| LeadScoring.ParseFactors | src/leads/scoring.ts:269-285 | missing notes and notes that are not a counters object give all-zero counters; for a counters object each of the five counters is the object's field when it has one and 0 when it does not |
| LeadScoring.NoteRoundTrip | src/leads/scoring.ts:116 | counters written to the notes column read back as the same counters |
| LeadScoring.Score | src/leads/scoring.ts:25-32 | the score never exceeds 100, is non-negative for non-negative counters, and is exactly 100 when the weighted sum reaches 100 |
| LeadScoring.ScoreMonotone | src/leads/scoring.ts:44-54 | more of every counter never lowers the score |
| LeadScoring.PriorityOf | src/leads/scoring.ts:35-39 | hot exactly from 80, warm exactly on 40-79, cold exactly below 40 |
| LeadScoring.PriorityName | src/leads/scoring.ts:59-63 | a tier's stored name reads back as that tier |
| LeadScoring.ParsePriority | src/leads/scoring.ts:20 | only the three tier names read as tiers, each as its own tier |
| LeadScoring.Record | src/leads/scoring.ts:108-116 | after recording, the stored tier is the one the new counters give and the notes hold those counters; the interaction time is now; identity, source, status and conversion are kept |
| LeadScoring.OpenedEmail | src/leads/scoring.ts:100-102 | no counter drops and the weighted sum grows by 10 |
| LeadScoring.ClickedLink | src/leads/scoring.ts:138-145 | no counter drops and the weighted sum grows by 15, plus 15 more when the link contains `/pricing` |
| LeadScoring.SignedUp | src/leads/scoring.ts:182-184 | no counter drops and the weighted sum grows by 55 |
| LeadScoring.CappedGain | src/leads/scoring.ts:53 | adding points to the uncapped sum raises the score by the same amount up to the cap |
| LeadScoring.TrackEmailOpen | src/leads/scoring.ts:89-127 | an unknown e-mail changes nothing and notifies nobody; a known lead gains one open and one touchpoint, its score rises by 10 up to 100, its tier is current, and a notification fires exactly when it is now hot and its stored tier was not hot; other leads are untouched |
| LeadScoring.TrackLinkClick | src/leads/scoring.ts:132-168 | as for an open, with the pricing counter raised exactly when the link contains `/pricing` and the score rising by 30 for such a link and 15 otherwise |
| LeadScoring.TrackTrialSignup | src/leads/scoring.ts:173-205 | afterwards the e-mail has a lead with status trial and a current tier; an unknown e-mail is appended with source `trial_signup` and no name, scores 55 and ends up warm, not hot; a known lead gains one sign-up and one touchpoint and 55 points up to 100; the notification always carries the new score |
| LeadScoring.HotLeadNotifiedOnce | src/leads/scoring.ts:121-123 | a lead already stored as hot, with a current tier, stays hot through another open or click and is not notified again |
| LeadScoring.UpdateLeadScore | src/leads/scoring.ts:68-84 | the lead with the e-mail gets the given interest and a new `updated_at`; every other row and the id counters are untouched |
| LeadScoring.RescoreEach | src/leads/scoring.ts:305-315 | each snapshot lead's row gets the tier of the snapshot's notes; rows of e-mails outside the snapshot are unchanged |
| LeadScoring.RecalculateAllScores | src/leads/scoring.ts:299-321 | every lead's stored tier is the one its counters give and only the tier and `updated_at` change |
| LeadScoring.RecalculateIdempotent | src/leads/scoring.ts:299-321 | recalculating twice equals recalculating once; on a table whose tiers are current it changes only `updated_at` |
| LeadScoring.ByLastInteraction | src/leads/scoring.ts:212-217 | a permutation of the leads in which latest interaction comes first and leads without one come last |
| LeadScoring.Limit | src/leads/scoring.ts:216 | a prefix of the listing, of the requested length when non-negative, the whole listing otherwise |
| LeadScoring.HotOrdered | src/leads/scoring.ts:212-215 | holds exactly the leads stored as hot, latest interaction first |
| LeadScoring.LimitKeepsLatest | src/leads/scoring.ts:215-216 | a lead cut by the limit has no later interaction than any lead kept |
| LeadScoring.HotLeadRows | src/leads/scoring.ts:212-217 | only stored-hot leads, latest first, at most `limit` of them, and any hot lead left out is no later than every listed one |
| LeadScoring.GetHotLeads | src/leads/scoring.ts:210-235 | one entry per listed row, each marked hot whatever its computed score, each the entry of a stored-hot lead |
| LeadScoring.GetAllLeadsWithScores | src/leads/scoring.ts:240-264 | one entry per lead, every lead has its entry, each entry's tier is the one its score gives, and the entries follow a reordering of the leads by last interaction, latest first and leads without one last |
| LeadManager.CaptureLead | src/leads/index.ts:35-61 | returns what the upsert reports and leaves the leads as the upsert does; a welcome drip adds exactly two campaign ids exactly when a non-empty name is given, and the connection's last inserted row id is then the second campaign's id; without a name the campaigns are untouched and the last row id is the one the upsert reports; no existing campaign changes |
| LeadManager.UpsertCapture | src/database/index.ts:229-235 | afterwards the e-mail has a lead and every earlier row keeps its place and e-mail; a new e-mail gets a row with a fresh positive id, the given name, source and interest and status new, and that id is reported; a known e-mail has only its interaction time and `updated_at` refreshed, and the statement reports the connection's previous last inserted row id, which is nonzero once anything was inserted |
| LeadManager.RecaptureReturnsStaleId | src/database/index.ts:229-235 | on a fresh connection, capturing `a`, `b`, then `a` again returns `b`'s id the third time: an upsert that updates reports the last inserted row id, not the recaptured lead's |
| LeadManager.RecaptureAfterDripReturnsCampaignId | src/leads/index.ts:41-52 | after a capture with a name, recapturing a known e-mail without one returns the id of the day-2 welcome campaign that the first capture inserted |
| LeadManager.GrowsTrans | src/leads/index.ts:455-468 | a table that keeps every row of an earlier one, which keeps every row of a still earlier one, keeps those rows too |
| LeadManager.GrowsKeepsFound | src/leads/index.ts:455-468 | an e-mail that has a lead still has one after further captures |
| LeadManager.BulkImportLeads | src/leads/index.ts:449-472 | imported plus failed equals the number of rows, every row's e-mail has a lead afterwards, no earlier lead is lost, and nothing fails once the connection has inserted any row or when the first row is new |
| LeadManager.UpdateLeadStatus | src/leads/index.ts:66-85 | the lead with the id gets the status and `updated_at`, its notes replaced only when a note is given, nothing else about it changes; other rows are untouched; the call reports success |
| LeadManager.ConvertLead | src/leads/index.ts:90-110 | the lead with the id becomes converted with status converted and conversion date now, notes as for a status change, e-mail, source, interest and last interaction kept; other rows untouched |
| LeadManager.TrackInteraction | src/leads/index.ts:429-444 | exactly the lead with the e-mail has its last interaction and `updated_at` set to now; the call reports success |
| LeadManager.GetLeadsByStatus | src/database/index.ts:237-239 | exactly the leads with the status, newest first |
| LeadManager.SourceScore | src/leads/index.ts:131-143 | the source points lie between 12 and 35 |
| LeadManager.SourceScoreDefaults | src/leads/index.ts:141 | an unlisted source scores 15, and `referral` scores 35 |
| LeadManager.InterestScore | src/leads/index.ts:146-149 | 25 exactly for high, 5 exactly for low, 15 for anything else (including a missing interest and the scoring tiers' names) |
| LeadManager.DaysBetween | src/leads/index.ts:155 | the day count has the sign of the time difference |
| LeadManager.DaysBetweenFullDays | src/leads/index.ts:155 | the day count is the number of whole days elapsed, truncated toward zero in either direction |
| LeadManager.RecencyScore | src/leads/index.ts:157-161 | 20 exactly under one day, 15 exactly for 1-6 days, 10 exactly for 7-29 days, 5 exactly from 30 days |
| LeadManager.EngagementScore | src/leads/index.ts:168 | the simulated engagement lies in 0-24 |
| LeadManager.OutlookOf | src/leads/index.ts:173-182 | hot exactly from 80, warm exactly on 60-79, interested exactly on 40-59, cold exactly below 40 |
| LeadManager.ScoreLead | src/leads/index.ts:127-188 | the total is the sum of the four factors, each from its own table, recency measured from the last interaction or else creation; the total lies in 22-104; the recommendation is the one for its tier |
| LeadManager.CalculateLeadScore | src/leads/index.ts:115-125 | a missing id scores 0 with no factors and says the lead was not found; factors are present exactly when the lead exists |
| LeadManager.ReferralExceedsHundred | src/leads/index.ts:131-170 | a fresh high-interest referral can score 104, over the 100 the factor comments suggest |
| LeadManager.OpenRows | src/leads/index.ts:217-222 | exactly the new, contacted or qualified leads created in the last 30 days, newest first |
| LeadManager.ScoreCandidates | src/leads/index.ts:224-231 | one entry per row, in order, each carrying the row's table score under its own draw |
| LeadManager.ScoreById | src/leads/index.ts:226 | scoring a row by its own id scores that row |
| LeadManager.Candidates | src/leads/index.ts:224-231 | the recent open rows in order, each with the score `calculateLeadScore` gives its id |
| LeadManager.KeepHot | src/leads/index.ts:232-233 | exactly the entries scoring at least 70, highest score first |
| LeadManager.GetHotLeads | src/leads/index.ts:215-242 | exactly the candidates scoring at least 70, highest score first |
| LeadManager.HotListExact | src/leads/index.ts:215-242 | every listed lead is a recent open row of the table scoring at least 70, and every candidate reaching 70 is listed |
| LeadManager.CandidateIsOpen | src/leads/index.ts:217-232 | a listed entry's lead is a recent open row of the table with at least 70 |
| LeadManager.FoundById | src/leads/index.ts:117 | looking a row up by its own id finds that row |
| LeadManager.MoveEach | src/leads/index.ts:351-358 | each snapshot lead's row is moved as the snapshot entry calls for; rows outside the snapshot are untouched |
| LeadManager.MoveEachRow | src/leads/index.ts:345-372 | a pass over the whole table moves each row by what its own state calls for |
| LeadManager.StalePass | src/leads/index.ts:345-358 | each stale lead is moved (new to contacted, contacted to lost), every other row left alone |
| LeadManager.QualifyPass | src/leads/index.ts:363-372 | each contacted high-interest lead with an interaction in the last three days is qualified, every other row left alone |
| LeadManager.StaleNotEngaged | src/leads/index.ts:345-368 | a lead moved by the stale pass is not qualified by the second pass |
| LeadManager.NurturedCases | src/leads/index.ts:340-379 | a stale new lead ends contacted, a stale contacted lead ends lost, an engaged one ends qualified, any other is unchanged; only status, notes and `updated_at` change; a stale lead's notes no longer carry scoring counters |
| LeadManager.AutomatedNurturing | src/leads/index.ts:340-379 | every lead ends as the stale pass followed by the qualifying pass leaves it |
| Seo.MatchedKeywords | src/seo/index.ts:352-355 | exactly the keywords whose lower-case form occurs in the lower-case content, never more than given |
| Seo.Failures | src/seo/index.ts:344-392 | one outcome per check, in check order |
| Seo.Cost | src/seo/index.ts:346 | a check costs at most its penalty, and nothing exactly when it passes (every penalty is positive) |
| Seo.Flag | src/seo/index.ts:345-349 | a passing check changes nothing; a failing one lowers the score by its penalty, appends its advice, and appends its issue when it has one |
| Seo.Failed | src/seo/index.ts:344-392 | the failing checks, never more than were run |
| Seo.AdviceOf | src/seo/index.ts:341 | one advice text per check, in order |
| Seo.TallyLists | src/seo/index.ts:339-395 | the recommendations are the advice of the failing checks and the issues those of the failing checks that report one, both in check order |
| Seo.TallyScore | src/seo/index.ts:342-392 | the score is 100 less the penalties of the recommendations given |
| Seo.PenaltiesMatch | src/seo/index.ts:344-392 | each check's advice stands for that check's own penalty |
| Seo.H2ImpliesH1 | src/seo/index.ts:364-365 | content with an H2 heading always passes the H1 check |
| Seo.FewKeywordsIff | src/seo/index.ts:357 | the keyword check fails exactly when fewer than half the keywords occur, and never for an empty keyword list |
| Seo.AnalyzeSeoReport | src/seo/index.ts:339-395 | the score is 100 less the penalties of the recommendations and lies in 30-100, 100 exactly with no recommendation; at most 5 issues, never more issues than recommendations; the keyword issue exactly when fewer than half the keywords occur; the missing-H1 issue exactly when `# ` is absent and never without the missing-H2 issue |
| Seo.AnalyzeSeo | src/seo/index.ts:339-395 | the score lies in 30-100 and is 100 exactly when there is no recommendation; at most 5 issues, never more issues than recommendations nor more recommendations than the six checks |
| Seo.IssuesDistinct | src/seo/index.ts:347-390 | no two checks report the same issue text |
| Seo.AnalyzeSeoSteps | src/seo/index.ts:351-377 | the keyword, H1 and H2 issues are reported exactly when those checks fail |
| Seo.TallySix | src/seo/index.ts:342-394 | six checks in turn lower the score by their costs, give one recommendation per failure and their issues in order |
| Seo.SixChecksCounts | src/seo/index.ts:342-394 | with positive penalties summing to at most 70 and an issue-less fifth check, the score lies in 30-100, is 100 exactly with no recommendation, and there are at most 5 issues |
| Seo.SixChecksIssues | src/seo/index.ts:342-394 | a check whose issue text no other check uses is reported exactly when it fails |
| Seo.TitleVariations | src/seo/index.ts:400-413 | eight titles, each containing the topic |
| Seo.JoinWithIncludes | src/seo/index.ts:419 | every joined part occurs in the joined string |
| Seo.FiveParts | src/seo/index.ts:420 | the description sentence starts with its lead, contains the title and holds the keyword list right after the lead |
| Seo.MetaDescription | src/seo/index.ts:418-421 | starts with "Learn about ", contains the title and each of the first three keywords |
| Seo.ListedKeywords | src/seo/index.ts:419 | a string holding the first three keywords joined by `, ` holds each of them |
| Seo.MetaIgnoresLaterKeywords | src/seo/index.ts:419 | keywords after the third make no difference |
| Seo.FirstMatch | src/seo/index.ts:272-275 | the first index at or after the start whose template matches the topic, and none exactly when no such template exists |
| Seo.PickTemplate | src/seo/index.ts:272-283 | a template of the list that matches the topic, or the first template when none matches |
| Seo.PickTemplateFirst | src/seo/index.ts:272-275 | a matching template is picked when no earlier one matches |
| Seo.GenerateBlogPost | src/seo/index.ts:266-289 | one of the six blog templates, matching the topic by title or keyword, or the first when none matches |
| Seo.ContentCalendar | src/seo/index.ts:445-460 | the first `4 * postsPerWeek` templates in table order (all six at most), counting from the end for a negative argument as `slice` does |
| Email.Placeholder | src/email/index.ts:424 | the placeholder text is the key plus four brace characters |
| Email.FillReplaces | src/email/index.ts:380-382 | content without the placeholder comes back unchanged; otherwise a value without `$` takes the place of the first placeholder and the text around it is kept |
| Email.FillEachNoBrace | src/email/index.ts:421-426 | content that opens no placeholder is unchanged by any entries |
| Email.FillFirst | src/email/index.ts:380-382 | filling keeps the number of pieces and removes exactly one occurrence of the key from the placeholder names (none when it has no placeholder) |
| Email.FillFirstWellFormed | src/email/index.ts:380-382 | filling with a value that opens no placeholder keeps content well formed |
| Email.ReplaceRendered | src/email/index.ts:380-382 | `replace('{{k}}', v)` on the rendered content, for a value without `$`, is the rendering of the content with its first `{{k}}` placeholder filled |
| Email.RenderIncludes | src/email/index.ts:36-233 | the rendered content contains `{{k}}` exactly when the content has a placeholder named `k` |
| Email.FillEachPieces | src/email/index.ts:421-426 | substituting the entries in turn removes one placeholder occurrence per entry key |
| Email.FillEachRendered | src/email/index.ts:421-426 | for values without `$`, the substitution loop on the rendered text is the rendering of the substituted pieces, which stay well formed |
| Email.FillEachLeaves | src/email/index.ts:421-426 | for values without `$`, `{{k}}` survives the loop exactly when the content held more `{{k}}` than there are entries for `k` |
| Email.OnlyFirstFilled | src/email/index.ts:424 | with two `{{k}}` in the content, one is still there after a replace |
| Email.InterleaveHoles | src/email/index.ts:36-233 | the placeholders of a template body are its part names, in order |
| Email.InterleaveWellFormed | src/email/index.ts:36-233 | plain names and prose give well-formed content |
| Email.VariablesDistinct | src/email/index.ts:68-231 | no template declares a variable twice |
| Email.PlainConsistent | src/email/index.ts:36-233 | a template whose parts are plain and name its variables has exactly those placeholders, each once, in order |
| Email.TemplatesConsistent | src/email/index.ts:36-233 | each of the six templates is well formed and its placeholders are exactly its declared variables |
| Email.DeclaredVariablesOccur | src/email/index.ts:36-233 | `{{k}}` occurs in a template's content exactly when `k` is one of its declared variables |
| Email.FindTemplate | src/email/index.ts:375 | a found template is in the list and carries the name; nothing found means no template carries it |
| Email.FindFirst | src/email/index.ts:375 | `find` returns the first template carrying the name |
| Email.NamesDistinct | src/email/index.ts:39-202 | no two templates share a name |
| Email.FindByName | src/email/index.ts:375 | looking a template up by its own name finds that template |
| Email.CreateCampaign | src/email/index.ts:239-260 | a fresh positive id, returned, whose row is the given campaign, pending, with nothing sent and no send time; every other row is kept |
| Email.SendEmail | src/email/index.ts:265-309 | a send succeeds exactly when the API key is non-empty and the request went through |
| Email.Successes | src/email/index.ts:332-347 | never more successes than sends |
| Email.NoKeyNoSuccess | src/email/index.ts:271-274 | without an API key no send succeeds |
| Email.SuccessesCount | src/email/index.ts:276-309 | with a key, the successes are exactly the recipients the network accepted |
| Email.SendCampaign | src/email/index.ts:315-364 | a missing campaign changes nothing and reports zero and zero; otherwise sent plus failed is the number of recipients, sent counts the successful sends, and the row becomes sent with that total and send time now even when every send failed, every other row kept |
| Email.SetupWelcomeDrip | src/email/index.ts:369-407 | every existing campaign is kept |
| Email.Drip | src/email/index.ts:374-400 | every existing campaign is kept |
| Email.WelcomeTemplatesFound | src/email/index.ts:375-389 | both welcome templates are found by name |
| Email.WelcomeDripCreatesTwo | src/email/index.ts:369-407 | exactly two campaigns are added, both pending to the user alone, the day-1 one scheduled now with the first welcome template's subject and the day-2 one a day later with the second's |
| Email.DripCreatesTwo | src/email/index.ts:374-400 | with both templates found, exactly the two welcome campaigns are added |
| Email.WelcomeContentFilled | src/email/index.ts:380-396 | with a name and base URL that open no placeholder and hold no `$`, neither welcome e-mail carries any placeholder |
| Email.BothFilled | src/email/index.ts:380-396 | filling both variables of a two-variable template with values without `$` leaves no placeholder |
| Email.WelcomeMatchTokenKeepsPlaceholder | src/email/index.ts:380-382 | a first name of `$&` leaves `{{firstName}}` in the day-1 welcome e-mail, because `replace` expands it to the placeholder it matched |
| Email.MatchTokenKeepsPlaceholder | src/email/index.ts:380-396 | in a two-variable template, a first value of `$&` puts the first placeholder back and filling the second keeps it |
| Email.NewsletterPlaceholders | src/email/index.ts:421-426 | for values without `$`, `{{k}}` survives in the newsletter exactly when `k` is one of its variables and no entry is given for it |
| Email.EntriesFilled | src/email/index.ts:421-426 | in a consistent template and for values without `$`, `{{k}}` survives exactly when `k` is a variable with no entry |
| Email.SendNewsletter | src/email/index.ts:412-443 | a new campaign to the whole list with the newsletter's subject and substituted content, marked sent with the number of successful sends, sent plus failed being the list's length; every other campaign kept |
| Analytics.CalculateTrend | src/analytics/index.ts:240-273 | a failed query or no older engagement is stable; otherwise up exactly when recent engagement exceeds the older by more than a tenth, down exactly when it falls short by more than a tenth |
| Analytics.ChangeScaled | src/analytics/index.ts:264-267 | the percentage thresholds are the ten-percent ratios between recent and older engagement |
| Analytics.SuccessRate | src/analytics/index.ts:190-191 | in 0-100, 0 with no attempts, 100 exactly when something was published and nothing failed, 0 exactly when nothing was published, and otherwise rate times attempts equals 100 times published |
| Analytics.RateBounds | src/analytics/index.ts:191 | a share of a positive whole, in percent, lies in 0-100, is 100 exactly for the whole and 0 exactly for nothing |
| Analytics.DivAtMostOne | src/analytics/index.ts:191 | a part over a positive whole is at most one |
| Analytics.AvgEngagementPerPost | src/analytics/index.ts:199-202 | 0 without posts; otherwise the average times the post count is the engagement total, missing sums counting as 0 |
| Analytics.AvgNonNegative | src/analytics/index.ts:199-202 | with no negative sums the average is not negative |
| Analytics.NamesWith | src/analytics/index.ts:332-343 | exactly the names of the platforms with the trend, none exactly when no platform has it |
| Analytics.When | src/analytics/index.ts:286-290 | the entry is present exactly when its condition holds, never twice |
| Analytics.Comparison | src/analytics/index.ts:293-300 | at most one entry, a best-against-worst comparison |
| Analytics.GenerateRecommendations | src/analytics/index.ts:346-348 | the list is never empty |
| Analytics.FoundIff | src/analytics/index.ts:278-344 | the checks find exactly the recommendations whose rule applies: success rate under 90, first platform more than twice the last, a top category when there are top posts, average under 5, the rising and the falling platforms, each reporting the input's own values |
| Analytics.RecommendationsIff | src/analytics/index.ts:278-351 | a recommendation is listed exactly when its rule applies, or it is "everything looks good" and no rule applies |
| Analytics.AppendRanked | src/analytics/index.ts:283-344 | appending at most one entry of the next rank keeps the list ordered |
| Analytics.AppendThree | src/analytics/index.ts:283-344 | appending three such pieces in rank order keeps the list ordered |
| Analytics.WhenPiece | src/analytics/index.ts:286-344 | a conditional entry is a piece of its own kind's rank |
| Analytics.SixRanked | src/analytics/index.ts:283-344 | six pieces of ranks 0 to 5, in order, form an ordered list |
| Analytics.RecommendationsOrdered | src/analytics/index.ts:278-351 | the entries follow the order of the checks and no kind appears twice |
| Analytics.AllGoodIff | src/analytics/index.ts:346-348 | the list is just "everything looks good" exactly when the success rate is at least 90, the first platform is not more than twice the last, there is no top category, the average is at least 5 and every platform is stable |
| Analytics.SinglePlatformNoComparison | src/analytics/index.ts:293-296 | with a single platform of non-negative engagement there is no best-against-worst entry |
| Analytics.Fields | src/analytics/index.ts:397 | one value per header |
| Analytics.RowLines | src/analytics/index.ts:396-398 | one comma-joined line per row, in order |
| Analytics.PlainFields | src/analytics/index.ts:397 | the values of a row without commas or line breaks in its text hold neither |
| Analytics.HeadersPlain | src/analytics/index.ts:393 | the header names hold neither a comma nor a line break |
| Analytics.CsvRoundTrip | src/analytics/index.ts:392-401 | split on line breaks the export gives the header line and one line per row; split on commas the header line gives the header names and each row line that row's values |
| Analytics.ExportCsv | src/analytics/index.ts:392-401 | with no rows the export is the header line alone; otherwise the header line, a line break, then the row lines joined by line breaks |
| Analytics.CsvCountsParse | src/analytics/index.ts:397 | the post and view counts of a row read back as the same numbers |
| Text.IndexFrom | src/email/index.ts:424 | the first occurrence of the pattern at or after the start, and none exactly when there is no occurrence there |
| Text.ReplaceFirst | src/email/index.ts:424 | with no occurrence the text is unchanged; with one and a replacement without `$`, the length changes by the replacement's length less the pattern's |
| Text.ReplaceAt | src/email/index.ts:424 | the first occurrence is replaced by the replacement with its `$$`, `$&`, `` $` `` and `$'` patterns expanded, and everything around it is kept |
| Text.ReplacePlainAt | src/email/index.ts:424 | a replacement without `$` is pasted as written in place of the first occurrence |
| Text.MatchToken | src/email/index.ts:424 | `$&` in a replacement expands to the matched text |
| Text.DollarPatterns | src/email/index.ts:424 | `$$` expands to a dollar sign, `` $` `` to the text before the match, `$'` to the text after it, and a `$` before any other character or at the end stays as written |
| Text.ReplaceWithMatch | src/email/index.ts:424 | a replacement of `$&` puts the matched text back, leaving the string unchanged |
| Text.ReplaceSkip | src/email/index.ts:424 | when the pattern starts nowhere in a prefix, replacing in the whole string replaces in the rest and keeps the prefix |
| Text.ReplaceKeepsLater | src/email/index.ts:424 | an occurrence after the first one is still there after the replace, at the same distance from the end, so shifted by the change in length for a replacement without `$` |
| Text.Lower | src/seo/index.ts:352-354 | the lower-cased text has the same length, character by character |
| Text.SplitJoin | src/analytics/index.ts:394-399 | splitting a join on its separator gives back the parts when no part contains the separator |
| Text.JoinFree | src/analytics/index.ts:394-399 | a join contains a character other than its separator only if a part does |
| Text.SlicePrefix | src/seo/index.ts:450 | `slice(0, end)` keeps a prefix whose length clamps to the list and counts a negative end from the back |
| Text.ParseNatToString | src/analytics/index.ts:397 | reading back a printed whole number gives the number |
| Sorting.SortBy | src/leads/index.ts:233 | a permutation of the input in ascending key order |
| Sorting.Partition | src/leads/index.ts:232 | the kept and the dropped elements together are the input, every kept one passes the test and every dropped one fails it |
| Sorting.PartitionMembers | src/leads/index.ts:232 | the kept part holds exactly the input elements that pass the test |

## Left out

- Platform connectors (`src/platforms/twitter.ts`, `linkedin.ts`, `facebook.ts`, `instagram.ts`, `reddit.ts`): the HTTP and OAuth calls are oracle parameters. Only the checks they make before any network call are modelled: not authenticated, and Instagram without media.
- Cron timers, `async`/`await` and the 100 ms pause between e-mails: every job is one sequential function application, with no interleaving.
- `Math.random`: every draw is a parameter in `[0, 1)`. The hashtag shuffle is a permutation parameter.
- Clock and calendar: times are whole minutes and a day is 1440 of them.
  - date-fns formatting is not modelled.
  - Time zones are not modelled.
  - Local `format` dates are compared with UTC `datetime('now')`, and the resulting skew is not modelled.
- JavaScript numbers:
  - the report's rates and averages are exact reals, and JS double rounding is ignored;
  - `toFixed` and `Math.round` in messages and funnel percentages are not modelled;
  - category and platform weights are exact.
- JavaScript strings:
  - lengths count Unicode characters, not UTF-16 code units;
  - `toLowerCase` folds only the ASCII letters.
- `JSON.parse`/`JSON.stringify`: the lead notes column is a datatype, either a counters object or plain text. A recipient list is a sequence. A notes value that is neither never arises in the model.
- SQL aggregates and date windows are not modelled, because they are SQLite's arithmetic over float columns:
  - `getDailyStats`, `getRangeStats`, `getPlatformPerformance`, `getTopPosts` and `getCategoryPerformance`;
  - `getLeadStats`, `getSourcePerformance`, `getConversionFunnel` and `generateLeadReport`;
  - `getCampaignStats`.
  
  The trend and the report's arithmetic take those queries' answers as inputs.
- Analytics.CalculateTrend: the two overlapping date windows are not modelled; the function receives the two sums.
- SEO persistence: `saveBlogPost`, `publishBlogPost` and `getAllBlogPosts` are plain SQL writes and reads. `generateContentCalendar`'s draft inserts are left out with them.
- Seo.GenerateBlogPost: the `null` of the exception path is not modelled, because nothing in the selection can throw. The article bodies of the blog templates are left out; the selection reads only titles and keywords.
- Email templates: the prose between placeholders is abridged. The placeholders, their order, the names and the subjects are kept exactly.
- Email.CreateCampaign: the `null` that a failing insert returns is not modelled, because an in-memory insert cannot fail.
- Email.SendCampaign: the exception path is not modelled. That path is a recipient list that fails to parse, or a database error, either of which reports zero sent and zero failed.
- Email.SendNewsletter: the supplied entries are a sequence. The model does not say in which order `Object.entries` would list an object's keys.
- Generator `generateCampaign`: a multi-post wrapper around `generatePost` that the scheduler never calls.
- Analytics `exportAnalytics`: the JSON branch and the empty string on error are left out. `engagementRate` is carried as the text JavaScript prints, not as a float.
- Analytics `generateReport`: only the success rate, the average per post and the recommendations are modelled. The other per-platform fields are SQL aggregates.
- Logging, `src/index.ts`, the dashboard server, routes and browser script, `src/config/index.ts` (only the defaults of 3 and 6 daily posts are used) and `init-db.js` are process and UI glue.
- LeadManager.KeepHot: the contract does not state that `Array.sort` keeps ties in the newest-first order. It states the order by score and the membership.
- LeadManager.DaysBetween: `differenceInDays` is taken as whole 1440-minute days. Its calendar-day handling across daylight-saving changes is not modelled.
- Sorting.SortBy: its contract states a permutation in key order but not stability. SQLite's order among equal keys is unspecified; `Array.prototype.sort` is stable, so where the program sorts in memory, rows with equal keys keep their input order there, which the model does not promise.
- Connection-wide last row id: the posts, analytics, campaign and SEO inserts made between two captures are not modelled one by one. The connection's last inserted row id is a parameter of `captureLead` and `bulkImportLeads`, so it can stand for any of them.
- Email.WelcomeContentFilled: holds for a name and base URL without `$`. A value with `$&` or `` $` `` can bring a placeholder back, as Email.WelcomeMatchTokenKeepsPlaceholder shows.
- Email.BothFilled: holds for values without `$`, for the same reason.
- Email.ReplaceRendered: states the rendering for values without `$` only. Text.ReplaceAt gives the expanded form for any value.
- Email.FillEachRendered: holds for values without `$` only.
- Email.FillEachLeaves: holds for values without `$` only.
- Email.EntriesFilled: holds for values without `$` only.
- Email.NewsletterPlaceholders: holds for values without `$` only.
- Email.FillReplaces: states the pasted value for values without `$` only. Text.ReplaceAt gives the expanded form.

Where the code and its documentation disagree, the model follows the code:

- The slot offset lies in `[-30, 29]`, not ±30 (`Allocation.Jitter`).
- A first trial sign-up scores 55 and is stored as warm, not hot (`LeadScoring.TrackTrialSignup`).
- A platform that no template lists gets no post, and so no slot (`Generator.GeneratePost`).
- The daily plan has no same-day guard; only the start-up check looks for today's posts (`Scheduler.GenerateDailySchedule`).
