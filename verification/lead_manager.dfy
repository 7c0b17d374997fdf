/**
 * The lead manager: capturing leads (alone and in bulk), status changes and
 * conversion, the four-factor table score with its recommendation, the
 * open-lead hot list, interaction tracking, and the nurturing pass that
 * moves stale leads down the funnel and qualifies engaged ones.
 */
module LeadManager {
  import opened Common
  import opened Store
  import opened Sorting
  import opened Generator
  import LeadScoring
  import Email

  // ------------------------------------------------------------ capture

  /** The interest a captured lead gets when the caller names none. */
  const DefaultInterest: string := "medium"

  /** A name that is a non-empty string (JavaScript truthiness). */
  predicate Named(name: Option<string>) { name.Some? && name.value != "" }

  /** The leads table after the upsert of `captureLead`, and the number the statement reports. */
  datatype Upsert = Upsert(leads: LeadTable, rowid: nat)

  /**
   * The upsert of `captureLead` and the `lastInsertRowid` of that statement:
   * the new row's id for a new e-mail. A known e-mail does not raise the
   * unique-key error the code is prepared for, and an upsert that updates
   * inserts nothing, so the statement reports the connection's last
   * inserted row id from before, `lastRowid`, whichever table that insert
   * was in (leads, posts, analytics, e-mail campaigns or SEO content).
   */
  function UpsertCapture(t: LeadTable, lastRowid: nat, email: string, name: Option<string>, source: string,
                         interest: string, now: int): (r: Upsert)
    requires ValidLeads(t)
    ensures ValidLeads(r.leads)
    ensures FindLead(r.leads, email).Some?
    ensures lastRowid != 0 || FindLead(t, email).None? ==> r.rowid != 0
    ensures FindLead(t, email).None? ==>
      && r.rowid >= 1 && (forall i :: 0 <= i < |t.rows| ==> t.rows[i].id != r.rowid)
      && FindLeadById(r.leads, r.rowid).Some?
      && var l := r.leads.rows[FindLeadById(r.leads, r.rowid).value];
        l.email == email && l.name == name && l.source == source && l.interest == Some(interest)
        && l.status == New
    ensures Grows(t.rows, r.leads.rows)
    ensures FindLead(t, email).Some? ==>
      && r.rowid == lastRowid
      && var i := FindLead(t, email).value;
        r.leads.rows == t.rows[i := t.rows[i].(lastInteraction := Some(now), updatedAt := now)]
  {
    var ins := InsertLead(t, email, name, source, Some(interest), now);
    assert ins.1 ==> FindLeadById(ins.0, t.nextId) == Some(|t.rows|) && FindLead(ins.0, email).Some? by {
      if ins.1 {
        assert ins.0.rows[|t.rows|].id == t.nextId;
        assert ins.0.rows[|t.rows|].email == email;
      }
    }
    assert !ins.1 ==> FindLead(ins.0, email).Some? by {
      if !ins.1 {
        assert ins.0.rows[FindLead(t, email).value].email == email;
      }
    }
    Upsert(ins.0, if ins.1 then t.nextId else lastRowid)
  }

  /**
   * What capturing returns: the leads and campaigns tables afterwards, the
   * number the call returns, and the connection's last inserted row id
   * afterwards.
   */
  datatype Capture = Capture(leads: LeadTable, campaigns: Email.Campaigns, rowid: nat, lastRowid: nat)

  /**
   * `captureLead`: the upsert, whose reported row id the call returns, then,
   * for a non-empty name, the welcome drip, whose two campaign inserts
   * become the connection's last inserted row id.
   */
  function CaptureLead(t: LeadTable, campaigns: Email.Campaigns, lastRowid: nat, email: string,
                       name: Option<string>, source: string, interest: string, baseUrl: string,
                       now: int): (r: Capture)
    requires ValidLeads(t) && Email.ValidTable(campaigns)
    ensures var u := UpsertCapture(t, lastRowid, email, name, source, interest, now);
      r.leads == u.leads && r.rowid == u.rowid
    ensures Email.ValidTable(r.campaigns)
    ensures Named(name) ==>
      && r.campaigns.rows.Keys == campaigns.rows.Keys + {campaigns.nextId, campaigns.nextId + 1}
      && r.lastRowid == campaigns.nextId + 1
    ensures !Named(name) ==> r.campaigns == campaigns && r.lastRowid == r.rowid
    ensures forall id :: id in campaigns.rows ==> r.campaigns.rows[id] == campaigns.rows[id]
  {
    var u := UpsertCapture(t, lastRowid, email, name, source, interest, now);
    if Named(name) then
      Email.WelcomeDripCreatesTwo(campaigns, email, name.value, baseUrl, now);
      Capture(u.leads, Email.SetupWelcomeDrip(campaigns, email, name.value, baseUrl, now), u.rowid,
              campaigns.nextId + 1)
    else
      Capture(u.leads, campaigns, u.rowid, u.rowid)
  }

  /**
   * Capturing `a`, then `b`, then `a` again, all without a name, returns
   * `b`'s id on the third call: the returned id is not the captured lead's.
   */
  lemma RecaptureReturnsStaleId(baseUrl: string)
    ensures var c1 := CaptureLead(EmptyLeads, Email.NoCampaigns, 0, "a", None, "direct", DefaultInterest, baseUrl, 0);
      var c2 := CaptureLead(c1.leads, c1.campaigns, c1.lastRowid, "b", None, "direct", DefaultInterest, baseUrl, 1);
      var c3 := CaptureLead(c2.leads, c2.campaigns, c2.lastRowid, "a", None, "direct", DefaultInterest, baseUrl, 2);
      c1.rowid == 1 && c2.rowid == 2 && c3.rowid == 2
  {
    var c1 := CaptureLead(EmptyLeads, Email.NoCampaigns, 0, "a", None, "direct", DefaultInterest, baseUrl, 0);
    assert FindLead(EmptyLeads, "a").None?;
    var c2 := CaptureLead(c1.leads, c1.campaigns, c1.lastRowid, "b", None, "direct", DefaultInterest, baseUrl, 1);
    assert FindLead(c1.leads, "b").None? by {
      assert c1.leads.rows[0].email == "a";
    }
    assert c2.leads.rows[0].email == "a";
    assert FindLead(c2.leads, "a").Some?;
  }

  /**
   * After a capture with a name, recapturing a known e-mail without one
   * returns `campaigns.nextId + 1`, the id the first call's day-2 welcome
   * campaign took in the campaigns table, and not a lead's id.
   */
  lemma RecaptureAfterDripReturnsCampaignId(t: LeadTable, campaigns: Email.Campaigns, lastRowid: nat,
                                            first: string, name: string, known: string,
                                            source: string, baseUrl: string, now: int)
    requires ValidLeads(t) && Email.ValidTable(campaigns) && name != ""
    requires FindLead(t, known).Some?
    ensures var c1 := CaptureLead(t, campaigns, lastRowid, first, Some(name), source, DefaultInterest, baseUrl, now);
      var c2 := CaptureLead(c1.leads, c1.campaigns, c1.lastRowid, known, None, source, DefaultInterest, baseUrl, now);
      c2.rowid == c1.lastRowid == campaigns.nextId + 1
  {
    var c1 := CaptureLead(t, campaigns, lastRowid, first, Some(name), source, DefaultInterest, baseUrl, now);
    assert Named(Some(name));
    CaptureKeepsFound(t, campaigns, lastRowid, first, Some(name), known, source, baseUrl, now);
    KnownCapture(c1.leads, c1.campaigns, c1.lastRowid, known, source, baseUrl, now);
  }

  /** A capture keeps every known e-mail known. */
  lemma CaptureKeepsFound(t: LeadTable, campaigns: Email.Campaigns, lastRowid: nat, email: string,
                          name: Option<string>, known: string, source: string, baseUrl: string, now: int)
    requires ValidLeads(t) && Email.ValidTable(campaigns) && FindLead(t, known).Some?
    ensures var c := CaptureLead(t, campaigns, lastRowid, email, name, source, DefaultInterest, baseUrl, now);
      ValidLeads(c.leads) && Email.ValidTable(c.campaigns) && FindLead(c.leads, known).Some?
  {
    var c := CaptureLead(t, campaigns, lastRowid, email, name, source, DefaultInterest, baseUrl, now);
    GrowsKeepsFound(t, c.leads, known);
  }

  /** Capturing a known e-mail without a name returns the last row id it is given. */
  lemma KnownCapture(t: LeadTable, campaigns: Email.Campaigns, lastRowid: nat, known: string,
                     source: string, baseUrl: string, now: int)
    requires ValidLeads(t) && Email.ValidTable(campaigns) && FindLead(t, known).Some?
    ensures CaptureLead(t, campaigns, lastRowid, known, None, source, DefaultInterest, baseUrl, now).rowid == lastRowid
  {
  }

  /** `after` keeps every row of `before` at its place, with its e-mail. */
  predicate Grows(before: seq<Lead>, after: seq<Lead>)
  {
    |before| <= |after| && forall i :: 0 <= i < |before| ==> after[i].email == before[i].email
  }

  lemma GrowsTrans(a: seq<Lead>, b: seq<Lead>, c: seq<Lead>)
    requires Grows(a, b) && Grows(b, c)
    ensures Grows(a, c)
  {
    assert forall i :: 0 <= i < |a| ==> c[i].email == b[i].email == a[i].email;
  }

  /** A known e-mail stays known in a table that grows. */
  lemma GrowsKeepsFound(t: LeadTable, u: LeadTable, email: string)
    requires Grows(t.rows, u.rows) && FindLead(t, email).Some?
    ensures FindLead(u, email).Some?
  {
    var i := FindLead(t, email).value;
    assert u.rows[i].email == email;
  }

  /** One row of a bulk import. */
  datatype ImportRow = ImportRow(email: string, name: Option<string>, source: string)

  datatype Import = Import(leads: LeadTable, campaigns: Email.Campaigns, lastRowid: nat, imported: nat, failed: nat)

  /**
   * `bulkImportLeads`: each row is captured in turn with interest `medium`
   * (an empty name counts as none) and counted as imported when the
   * returned number is not 0; the connection's last inserted row id is
   * carried from one capture to the next.
   */
  function BulkImportLeads(t: LeadTable, campaigns: Email.Campaigns, lastRowid: nat, rows: seq<ImportRow>,
                           baseUrl: string, now: int): (r: Import)
    requires ValidLeads(t) && Email.ValidTable(campaigns)
    ensures ValidLeads(r.leads) && Email.ValidTable(r.campaigns)
    ensures r.imported + r.failed == |rows|
    ensures AllFound(r.leads, rows)
    ensures lastRowid != 0 ==> r.failed == 0 && r.lastRowid != 0
    ensures |rows| > 0 && FindLead(t, rows[0].email).None? ==> r.failed == 0
    ensures Grows(t.rows, r.leads.rows)
    decreases |rows|
  {
    if |rows| == 0 then Import(t, campaigns, lastRowid, 0, 0)
    else
      var row := rows[0];
      var c := CaptureLead(t, campaigns, lastRowid, row.email, if Named(row.name) then row.name else None,
                           row.source, DefaultInterest, baseUrl, now);
      var rest := BulkImportLeads(c.leads, c.campaigns, c.lastRowid, rows[1..], baseUrl, now);
      FoundChain(c.leads, rest.leads, rows);
      GrowsTrans(t.rows, c.leads.rows, rest.leads.rows);
      if c.rowid != 0 then Import(rest.leads, rest.campaigns, rest.lastRowid, rest.imported + 1, rest.failed)
      else Import(rest.leads, rest.campaigns, rest.lastRowid, rest.imported, rest.failed + 1)
  }

  /** Every imported e-mail has a row in `u`. */
  ghost predicate AllFound(u: LeadTable, rows: seq<ImportRow>)
  {
    forall k :: 0 <= k < |rows| ==> FindLead(u, rows[k].email).Some?
  }

  /** A first e-mail known before the rest of the import is still known after it. */
  lemma FoundChain(c: LeadTable, u: LeadTable, rows: seq<ImportRow>)
    requires |rows| > 0 && FindLead(c, rows[0].email).Some?
    requires Grows(c.rows, u.rows) && AllFound(u, rows[1..])
    ensures AllFound(u, rows)
  {
    GrowsKeepsFound(c, u, rows[0].email);
    assert forall k :: 1 <= k < |rows| ==> rows[k] == rows[1..][k - 1];
  }

  // ------------------------------------------------------------ updates

  /**
   * The row update of `updateLeadStatus`: the new status, the given note
   * text if any (an absent note keeps the old notes), and `updated_at`.
   */
  function WithStatus(l: Lead, status: LeadStatus, note: Option<string>, now: int): Lead
  {
    l.(status := status, notes := if note.Some? then Some(TextNote(note.value)) else l.notes, updatedAt := now)
  }

  /** `updateLeadStatus`: the lead with id `id`, if any, gets the status and note; the call reports success. */
  function UpdateLeadStatus(t: LeadTable, id: nat, status: LeadStatus, note: Option<string>, now: int)
    : (r: (LeadTable, bool))
    requires ValidLeads(t)
    ensures ValidLeads(r.0) && r.1
    ensures |r.0.rows| == |t.rows| && r.0.nextId == t.nextId
    ensures forall k :: 0 <= k < |t.rows| && t.rows[k].id != id ==> r.0.rows[k] == t.rows[k]
    ensures forall k :: 0 <= k < |t.rows| && t.rows[k].id == id ==>
      && r.0.rows[k].status == status && r.0.rows[k].updatedAt == now
      && r.0.rows[k].notes == (if note.Some? then Some(TextNote(note.value)) else t.rows[k].notes)
      && r.0.rows[k] == t.rows[k].(status := status, notes := r.0.rows[k].notes, updatedAt := now)
  {
    match FindLeadById(t, id)
    case None => (t, true)
    case Some(i) => (ChangeLead(t, i, WithStatus(t.rows[i], status, note, now)), true)
  }

  /**
   * `convertLead`: the lead with id `id`, if any, becomes converted, with
   * the conversion date set to now and the note kept as for a status change.
   */
  function ConvertLead(t: LeadTable, id: nat, note: Option<string>, now: int): (r: (LeadTable, bool))
    requires ValidLeads(t)
    ensures ValidLeads(r.0) && r.1 && |r.0.rows| == |t.rows|
    ensures forall k :: 0 <= k < |t.rows| && t.rows[k].id != id ==> r.0.rows[k] == t.rows[k]
    ensures forall k :: 0 <= k < |t.rows| && t.rows[k].id == id ==>
      && r.0.rows[k].status == Converted && r.0.rows[k].converted && r.0.rows[k].conversionDate == Some(now)
      && r.0.rows[k].notes == (if note.Some? then Some(TextNote(note.value)) else t.rows[k].notes)
      && r.0.rows[k].email == t.rows[k].email && r.0.rows[k].source == t.rows[k].source
      && r.0.rows[k].interest == t.rows[k].interest && r.0.rows[k].lastInteraction == t.rows[k].lastInteraction
  {
    match FindLeadById(t, id)
    case None => (t, true)
    case Some(i) =>
      var l := WithStatus(t.rows[i], Converted, note, now).(converted := true, conversionDate := Some(now));
      (ChangeLead(t, i, l), true)
  }

  /** `trackInteraction`: the lead with `email`, if any, has its last interaction set to now. */
  function TrackInteraction(t: LeadTable, email: string, now: int): (r: (LeadTable, bool))
    requires ValidLeads(t)
    ensures ValidLeads(r.0) && r.1 && |r.0.rows| == |t.rows|
    ensures forall k :: 0 <= k < |t.rows| ==>
      r.0.rows[k] == if t.rows[k].email == email then t.rows[k].(lastInteraction := Some(now), updatedAt := now)
                     else t.rows[k]
  {
    match FindLead(t, email)
    case None => (t, true)
    case Some(i) => (ChangeLead(t, i, t.rows[i].(lastInteraction := Some(now), updatedAt := now)), true)
  }

  /** The sort key of `ORDER BY created_at DESC`. */
  function CreatedKey(l: Lead): int { -l.createdAt }

  /** `getLeadsByStatus`: the leads with `status`, newest first. */
  function GetLeadsByStatus(t: LeadTable, status: LeadStatus): (r: seq<Lead>)
    ensures forall l :: l in r <==> l in t.rows && l.status == status
    ensures forall i, j :: 0 <= i < j < |r| ==> r[i].createdAt >= r[j].createdAt
  {
    var parts := Partition(t.rows, (l: Lead) => l.status == status);
    forall l ensures l in parts.0 <==> l in t.rows && l.status == status {
      PartitionMembers(t.rows, (l: Lead) => l.status == status, l);
    }
    forall l ensures l in SortBy(parts.0, CreatedKey) <==> l in parts.0 {
      SortByMembers(parts.0, CreatedKey, l);
    }
    SortBy(parts.0, CreatedKey)
  }

  // ------------------------------------------------------------ table score

  /** Points for where the lead came from; an unlisted source scores 15. */
  function SourceScore(source: string): (s: int)
    ensures 12 <= s <= 35
  {
    if source == "organic_search" then 30
    else if source == "linkedin" then 25
    else if source == "twitter" then 20
    else if source == "reddit" then 18
    else if source == "facebook" then 15
    else if source == "instagram" then 12
    else if source == "referral" then 35
    else if source == "direct" then 25
    else 15
  }

  /** The sources the table lists. */
  const ListedSources: seq<string> :=
    ["organic_search", "linkedin", "twitter", "reddit", "facebook", "instagram", "referral", "direct"]

  /** A source the table does not list scores 15; `referral` scores 35, above the 30 its comment allows. */
  lemma SourceScoreDefaults(source: string)
    ensures source !in ListedSources ==> SourceScore(source) == 15
    ensures SourceScore("referral") == 35
  {
    if source !in ListedSources {
      assert source != ListedSources[0] && source != ListedSources[1] && source != ListedSources[2];
      assert source != ListedSources[3] && source != ListedSources[4] && source != ListedSources[5];
      assert source != ListedSources[6] && source != ListedSources[7];
    }
  }

  /**
   * Points for the stored interest: high 25, medium 15, low 5; anything
   * else, the scoring tiers hot, warm and cold included, scores 15.
   */
  function InterestScore(interest: Option<string>): (s: int)
    ensures s == 5 || s == 15 || s == 25
    ensures s == 25 <==> interest == Some("high")
    ensures s == 5 <==> interest == Some("low")
  {
    if interest == Some("high") then 25
    else if interest == Some("medium") then 15
    else if interest == Some("low") then 5
    else 15
  }

  /** Whole days from `earlier` to `later`, truncated toward zero as `differenceInDays` does. */
  function DaysBetween(later: int, earlier: int): (d: int)
    ensures later >= earlier ==> d >= 0
    ensures later < earlier ==> d <= 0
  {
    var diff := later - earlier;
    if diff >= 0 then diff / MinutesPerDay else -((-diff) / MinutesPerDay)
  }

  /** The whole days counted are the full days elapsed, in either direction. */
  lemma DaysBetweenFullDays(later: int, earlier: int)
    ensures var d := DaysBetween(later, earlier);
      if later >= earlier then d * MinutesPerDay <= later - earlier < (d + 1) * MinutesPerDay
      else -d * MinutesPerDay <= earlier - later < (-d + 1) * MinutesPerDay
  {
  }

  /** Points for how recent the last interaction is: under 1 day 20, under 7 days 15, under 30 days 10, else 5. */
  function RecencyScore(days: int): (s: int)
    ensures s == 20 <==> days < 1
    ensures s == 15 <==> 1 <= days < 7
    ensures s == 10 <==> 7 <= days < 30
    ensures s == 5 <==> days >= 30
  {
    if days < 1 then 20 else if days < 7 then 15 else if days < 30 then 10 else 5
  }

  /** `Math.min(25, Math.floor(Math.random() * 25))`: the simulated engagement. */
  function EngagementScore(u: Unit): (s: int)
    ensures 0 <= s <= 24
  {
    Min(25, PickIndex(u, 25))
  }

  /** The four recommendation tiers. */
  datatype Outlook = HotLead | WarmLead | Interested | ColdLead

  function OutlookOf(score: int): (o: Outlook)
    ensures o == HotLead <==> score >= 80
    ensures o == WarmLead <==> 60 <= score < 80
    ensures o == Interested <==> 40 <= score < 60
    ensures o == ColdLead <==> score < 40
  {
    if score >= 80 then HotLead else if score >= 60 then WarmLead else if score >= 40 then Interested else ColdLead
  }

  function Recommendation(o: Outlook): string
  {
    match o
    case HotLead => "\U{1F525} HOT LEAD - Contact immediately with personalized demo offer"
    case WarmLead => "\U{26A1} WARM LEAD - Schedule follow-up call or send premium trial offer"
    case Interested => "\U{1F440} INTERESTED - Continue nurturing with educational content"
    case ColdLead => "\U{1F976} COLD LEAD - Add to long-term drip campaign"
  }

  const LeadNotFound: string := "Lead not found"

  /** The points per factor of a table score; a lead that is not found has none. */
  datatype Points = NoPoints | Points(sourceQuality: int, interestLevel: int, recency: int, engagement: int)

  /** A table score: the total, the points per factor, and the recommendation. */
  datatype TableScore = TableScore(score: int, factors: Points, recommendation: string)

  /** The score of a lead that exists, with the engagement draw `u`, at time `now`. */
  function ScoreLead(l: Lead, now: int, u: Unit): (r: TableScore)
    ensures r.factors.Points?
    ensures r.score == r.factors.sourceQuality + r.factors.interestLevel + r.factors.recency + r.factors.engagement
    ensures r.factors.sourceQuality == SourceScore(l.source)
    ensures r.factors.interestLevel == InterestScore(l.interest)
    ensures r.factors.recency ==
      RecencyScore(DaysBetween(now, if l.lastInteraction.Some? then l.lastInteraction.value else l.createdAt))
    ensures r.factors.engagement == EngagementScore(u)
    ensures 22 <= r.score <= 104
    ensures r.recommendation == Recommendation(OutlookOf(r.score))
  {
    var since := if l.lastInteraction.Some? then l.lastInteraction.value else l.createdAt;
    var p := Points(SourceScore(l.source), InterestScore(l.interest), RecencyScore(DaysBetween(now, since)),
                    EngagementScore(u));
    var total := p.sourceQuality + p.interestLevel + p.recency + p.engagement;
    TableScore(total, p, Recommendation(OutlookOf(total)))
  }

  /**
   * `calculateLeadScore` (the table score): a lead that is not found scores
   * 0 with no factors and says so; otherwise the four factors add up.
   */
  function CalculateLeadScore(t: LeadTable, id: nat, now: int, u: Unit): (r: TableScore)
    ensures FindLeadById(t, id).None? ==> r == TableScore(0, NoPoints, LeadNotFound)
    ensures FindLeadById(t, id).Some? ==> r == ScoreLead(t.rows[FindLeadById(t, id).value], now, u)
    ensures r.factors.Points? <==> FindLeadById(t, id).Some?
  {
    match FindLeadById(t, id)
    case None => TableScore(0, NoPoints, LeadNotFound)
    case Some(i) => ScoreLead(t.rows[i], now, u)
  }

  /** A referral can score above 100, for all the comment's "max 30" on the source factor. */
  lemma ReferralExceedsHundred(l: Lead, now: int)
    requires l.source == "referral" && l.interest == Some("high") && l.lastInteraction == Some(now)
    ensures ScoreLead(l, now, 0.99).score == 104
  {
    assert PickIndex(0.99, 25) == 24;
  }

  // ------------------------------------------------------------ hot list

  /** The statuses the hot list looks at. */
  predicate Open(l: Lead) { l.status == New || l.status == Contacted || l.status == Qualified }

  /** How far back the hot list looks, and the score it requires. */
  const HotWindow: int := 30 * MinutesPerDay
  const HotScore: int := 70

  predicate RecentOpen(l: Lead, now: int) { Open(l) && l.createdAt > now - HotWindow }

  /** A lead together with its table score. */
  datatype ScoredLead = ScoredLead(lead: Lead, score: int)

  /** The rows the hot list reads: the recent open leads, newest first. */
  function OpenRows(t: LeadTable, now: int): (r: seq<Lead>)
    ensures forall l :: l in r <==> l in t.rows && RecentOpen(l, now)
    ensures forall i, j :: 0 <= i < j < |r| ==> r[i].createdAt >= r[j].createdAt
  {
    var open := Partition(t.rows, (l: Lead) => RecentOpen(l, now)).0;
    forall l ensures l in open <==> l in t.rows && RecentOpen(l, now) {
      PartitionMembers(t.rows, (l: Lead) => RecentOpen(l, now), l);
    }
    var r := SortBy(open, CreatedKey);
    forall l ensures l in r <==> l in open {
      SortByMembers(open, CreatedKey, l);
    }
    assert forall i, j :: 0 <= i < j < |r| ==> CreatedKey(r[i]) <= CreatedKey(r[j]);
    r
  }

  /** Each row scored in turn by its table score, the `k`-th with the draw `draws(from + k)`. */
  function ScoreCandidates(rows: seq<Lead>, now: int, draws: nat -> Unit, from: nat): (r: seq<ScoredLead>)
    ensures |r| == |rows|
    ensures forall k :: 0 <= k < |r| ==> r[k].lead == rows[k] && r[k].score == ScoreLead(rows[k], now, draws(from + k)).score
  {
    seq(|rows|, k requires 0 <= k < |rows| => ScoredLead(rows[k], ScoreLead(rows[k], now, draws(from + k)).score))
  }

  /** Scoring a row of the table by its id is scoring the row itself. */
  lemma ScoreById(t: LeadTable, l: Lead, now: int, u: Unit)
    requires ValidLeads(t) && l in t.rows
    ensures CalculateLeadScore(t, l.id, now, u) == ScoreLead(l, now, u)
  {
    FoundById(t, l);
  }

  /**
   * The scored candidates of the hot list, newest first; the `k`-th is
   * scored with the draw `draws(k)`, as `calculateLeadScore` on its id
   * would score it.
   */
  function Candidates(t: LeadTable, now: int, draws: nat -> Unit): (r: seq<ScoredLead>)
    requires ValidLeads(t)
    ensures |r| == |OpenRows(t, now)|
    ensures forall k :: 0 <= k < |r| ==>
      r[k].lead == OpenRows(t, now)[k] && r[k].score == CalculateLeadScore(t, r[k].lead.id, now, draws(k)).score
  {
    var rows := OpenRows(t, now);
    var r := ScoreCandidates(rows, now, draws, 0);
    forall k | 0 <= k < |r| ensures r[k].score == CalculateLeadScore(t, r[k].lead.id, now, draws(k)).score {
      assert rows[k] in rows;
      ScoreById(t, rows[k], now, draws(k));
    }
    r
  }

  function ScoreKey(s: ScoredLead): int { -s.score }

  predicate HotEnough(s: ScoredLead) { s.score >= HotScore }

  /** The entries scoring at least 70, highest score first, ties in their given order. */
  function KeepHot(scored: seq<ScoredLead>): (r: seq<ScoredLead>)
    ensures forall i, j :: 0 <= i < j < |r| ==> r[i].score >= r[j].score
    ensures forall s :: s in r <==> s in scored && HotEnough(s)
  {
    var kept := Partition(scored, HotEnough).0;
    forall s ensures s in kept <==> s in scored && HotEnough(s) {
      PartitionMembers(scored, HotEnough, s);
    }
    var r := SortBy(kept, ScoreKey);
    forall s ensures s in r <==> s in kept {
      SortByMembers(kept, ScoreKey, s);
    }
    assert forall i, j :: 0 <= i < j < |r| ==> ScoreKey(r[i]) <= ScoreKey(r[j]);
    r
  }

  /**
   * `getHotLeads` (the table score): the open leads created in the last 30
   * days, newest first, scored in turn, those scoring at least 70 kept, and
   * ordered by score, highest first (ties keep the newest-first order).
   */
  function GetHotLeads(t: LeadTable, now: int, draws: nat -> Unit): (r: seq<ScoredLead>)
    requires ValidLeads(t)
    ensures forall i, j :: 0 <= i < j < |r| ==> r[i].score >= r[j].score
    ensures forall s :: s in r <==> s in Candidates(t, now, draws) && HotEnough(s)
  {
    KeepHot(Candidates(t, now, draws))
  }

  /**
   * Every listed lead is a recent open lead of the table scoring at least
   * 70, and every candidate whose score reaches 70 is listed.
   */
  lemma HotListExact(t: LeadTable, now: int, draws: nat -> Unit)
    requires ValidLeads(t)
    ensures var r := GetHotLeads(t, now, draws);
      forall k :: 0 <= k < |r| ==> r[k].score >= HotScore && r[k].lead in t.rows && RecentOpen(r[k].lead, now)
    ensures var c := Candidates(t, now, draws);
      forall k :: 0 <= k < |c| && c[k].score >= HotScore ==> c[k] in GetHotLeads(t, now, draws)
  {
    var r := GetHotLeads(t, now, draws);
    var c := Candidates(t, now, draws);
    forall k | 0 <= k < |r| ensures r[k].score >= HotScore && r[k].lead in t.rows && RecentOpen(r[k].lead, now) {
      CandidateIsOpen(t, now, draws, r[k]);
    }
    forall k | 0 <= k < |c| && c[k].score >= HotScore ensures c[k] in r {
      assert c[k] in c;
    }
  }

  /** A listed entry is a candidate, so its lead is a recent open lead of the table. */
  lemma CandidateIsOpen(t: LeadTable, now: int, draws: nat -> Unit, s: ScoredLead)
    requires ValidLeads(t) && s in GetHotLeads(t, now, draws)
    ensures s.score >= HotScore && s.lead in t.rows && RecentOpen(s.lead, now)
  {
    var c := Candidates(t, now, draws);
    var rows := OpenRows(t, now);
    var j :| 0 <= j < |c| && c[j] == s;
    assert rows[j] in rows;
  }

  /** Looking a row of the table up by its own id finds that row. */
  lemma FoundById(t: LeadTable, l: Lead)
    requires ValidLeads(t) && l in t.rows
    ensures FindLeadById(t, l.id).Some? && t.rows[FindLeadById(t, l.id).value] == l
  {
    var i :| 0 <= i < |t.rows| && t.rows[i] == l;
    var j := FindLeadById(t, l.id).value;
    assert i == j;
  }

  // ------------------------------------------------------------ nurturing

  /** How long without interaction makes a lead stale, and how recent an interaction counts as engaged. */
  const StaleAfter: int := 7 * MinutesPerDay
  const EngagedWithin: int := 3 * MinutesPerDay

  /** A new or contacted lead whose last interaction is more than seven days old (one with none is not stale). */
  predicate Stale(l: Lead, now: int)
  {
    (l.status == New || l.status == Contacted) && l.lastInteraction.Some? && l.lastInteraction.value < now - StaleAfter
  }

  /** A contacted lead of high interest whose last interaction is under three days old. */
  predicate Engaged(l: Lead, now: int)
  {
    l.status == Contacted && l.interest == Some("high") && l.lastInteraction.Some?
    && l.lastInteraction.value > now - EngagedWithin
  }

  /** A status change with its note, as the nurturing pass makes them. */
  datatype Move = Move(status: LeadStatus, note: string)

  const ReengageNote: string := "Automated re-engagement attempt"
  const GiveUpNote: string := "No response after multiple attempts"
  const QualifyNote: string := "Auto-qualified: High engagement"

  /** What the stale pass does to a lead: one more attempt for a new lead, giving up on a contacted one. */
  function StaleMove(l: Lead, now: int): Option<Move>
  {
    if !Stale(l, now) then None
    else if l.status == New then Some(Move(Contacted, ReengageNote))
    else Some(Move(Lost, GiveUpNote))
  }

  /** What the qualifying pass does to a lead. */
  function EngagedMove(l: Lead, now: int): Option<Move>
  {
    if Engaged(l, now) then Some(Move(Qualified, QualifyNote)) else None
  }

  /** A lead after an optional move. */
  function Moved(l: Lead, m: Option<Move>, now: int): Lead
  {
    if m.Some? then WithStatus(l, m.value.status, Some(m.value.note), now) else l
  }

  predicate DistinctIds(rows: seq<Lead>)
  {
    forall i, j :: 0 <= i < j < |rows| ==> rows[i].id != rows[j].id
  }

  /**
   * `r` is `t` after the moves the leads of `snapshot` call for: a row whose
   * id is in the snapshot is moved by its snapshot entry's move, every other
   * row is as it was.
   */
  ghost predicate MovedBy(r: LeadTable, t: LeadTable, snapshot: seq<Lead>, step: Lead -> Option<Move>, now: int)
    requires |r.rows| == |t.rows|
  {
    && (forall k :: 0 <= k < |t.rows| ==>
          (forall j :: 0 <= j < |snapshot| ==> snapshot[j].id != t.rows[k].id) ==> r.rows[k] == t.rows[k])
    && (forall k, j :: 0 <= k < |t.rows| && 0 <= j < |snapshot| && snapshot[j].id == t.rows[k].id ==>
          r.rows[k] == Moved(t.rows[k], step(snapshot[j]), now))
  }

  /**
   * A pass of the nurturing loop: for each lead of the snapshot read at its
   * start, the move it calls for is made by a status update on its id.
   */
  function MoveEach(t: LeadTable, snapshot: seq<Lead>, step: Lead -> Option<Move>, now: int): (r: LeadTable)
    requires ValidLeads(t) && DistinctIds(snapshot)
    ensures ValidLeads(r) && |r.rows| == |t.rows| && r.nextId == t.nextId
    ensures MovedBy(r, t, snapshot, step, now)
    decreases |snapshot|
  {
    if |snapshot| == 0 then t
    else
      var s := snapshot[0];
      var t1 := if step(s).Some? then UpdateLeadStatus(t, s.id, step(s).value.status, Some(step(s).value.note), now).0
                else t;
      var r := MoveEach(t1, snapshot[1..], step, now);
      MoveChain(r, t1, t, snapshot, step, now);
      r
  }

  /** Moving the snapshot's first lead and then the rest moves them all. */
  lemma MoveChain(r: LeadTable, t1: LeadTable, t: LeadTable, snapshot: seq<Lead>, step: Lead -> Option<Move>, now: int)
    requires |snapshot| > 0 && DistinctIds(snapshot)
    requires |t1.rows| == |t.rows| && |r.rows| == |t.rows|
    requires forall k :: 0 <= k < |t.rows| ==>
      t1.rows[k] == if t.rows[k].id == snapshot[0].id then Moved(t.rows[k], step(snapshot[0]), now) else t.rows[k]
    requires MovedBy(r, t1, snapshot[1..], step, now)
    ensures MovedBy(r, t, snapshot, step, now)
  {
    var s := snapshot[0];
    assert forall j :: 0 < j < |snapshot| ==> snapshot[j].id != s.id;
    assert forall j :: 0 <= j < |snapshot[1..]| ==> snapshot[1..][j] == snapshot[j + 1];
    forall k, j | 0 <= k < |t.rows| && 0 <= j < |snapshot| && snapshot[j].id == t.rows[k].id
      ensures r.rows[k] == Moved(t.rows[k], step(snapshot[j]), now)
    {
      if j > 0 {
        assert t1.rows[k] == t.rows[k];
        assert snapshot[1..][j - 1] == snapshot[j];
      } else {
        assert forall j' :: 0 <= j' < |snapshot[1..]| ==> snapshot[1..][j'].id != t1.rows[k].id;
      }
    }
  }

  /** A pass over the whole table moves each row by what its own state calls for. */
  lemma MoveEachRow(t: LeadTable, step: Lead -> Option<Move>, now: int)
    requires ValidLeads(t)
    ensures forall k :: 0 <= k < |t.rows| ==> MoveEach(t, t.rows, step, now).rows[k] == Moved(t.rows[k], step(t.rows[k]), now)
  {
    var r := MoveEach(t, t.rows, step, now);
    forall k | 0 <= k < |t.rows| ensures r.rows[k] == Moved(t.rows[k], step(t.rows[k]), now) {
      assert t.rows[k].id == t.rows[k].id;
    }
  }

  /** The stale pass: each stale lead moved by `StaleMove`, every other row left alone. */
  function StalePass(t: LeadTable, now: int): (r: LeadTable)
    requires ValidLeads(t)
    ensures ValidLeads(r) && |r.rows| == |t.rows|
    ensures forall k :: 0 <= k < |t.rows| ==> r.rows[k] == Moved(t.rows[k], StaleMove(t.rows[k], now), now)
  {
    MoveEachRow(t, (l: Lead) => StaleMove(l, now), now);
    MoveEach(t, t.rows, (l: Lead) => StaleMove(l, now), now)
  }

  /** The qualifying pass: each engaged lead qualified, every other row left alone. */
  function QualifyPass(t: LeadTable, now: int): (r: LeadTable)
    requires ValidLeads(t)
    ensures ValidLeads(r) && |r.rows| == |t.rows|
    ensures forall k :: 0 <= k < |t.rows| ==> r.rows[k] == Moved(t.rows[k], EngagedMove(t.rows[k], now), now)
  {
    MoveEachRow(t, (l: Lead) => EngagedMove(l, now), now);
    MoveEach(t, t.rows, (l: Lead) => EngagedMove(l, now), now)
  }

  /** A lead the stale pass moved is not engaged afterwards: its last interaction is over seven days old. */
  lemma StaleNotEngaged(l: Lead, now: int)
    requires Stale(l, now)
    ensures !Engaged(Moved(l, StaleMove(l, now), now), now)
  {
    assert Moved(l, StaleMove(l, now), now).lastInteraction == l.lastInteraction;
  }

  /** What one run of the nurturing does to one lead: the stale move, then the qualifying move. */
  function Nurtured(l: Lead, now: int): Lead
  {
    var m := Moved(l, StaleMove(l, now), now);
    Moved(m, EngagedMove(m, now), now)
  }

  /**
   * The outcome for one lead: a stale new lead is contacted, a stale
   * contacted lead is lost (neither is then qualified), an engaged lead is
   * qualified, and any other lead is left as it was. Only the status, the
   * notes and `updated_at` can change, and a stale lead's counters read as
   * zero afterwards.
   */
  lemma NurturedCases(l: Lead, now: int)
    ensures Stale(l, now) && l.status == New ==>
      Nurtured(l, now).status == Contacted && Nurtured(l, now).notes == Some(TextNote(ReengageNote))
    ensures Stale(l, now) && l.status == Contacted ==>
      Nurtured(l, now).status == Lost && Nurtured(l, now).notes == Some(TextNote(GiveUpNote))
    ensures !Stale(l, now) && Engaged(l, now) ==>
      Nurtured(l, now).status == Qualified && Nurtured(l, now).notes == Some(TextNote(QualifyNote))
    ensures !Stale(l, now) && !Engaged(l, now) ==> Nurtured(l, now) == l
    ensures Nurtured(l, now) == l.(status := Nurtured(l, now).status, notes := Nurtured(l, now).notes,
                                   updatedAt := Nurtured(l, now).updatedAt)
    ensures Stale(l, now) ==> LeadScoring.ParseFactors(Nurtured(l, now).notes) == LeadScoring.NoFactors
  {
    if Stale(l, now) {
      StaleNotEngaged(l, now);
    }
  }

  /**
   * `automatedNurturing`: the stale pass over the leads read at its start,
   * then the qualifying pass over the leads read after it; each lead ends
   * as `Nurtured` says.
   */
  function AutomatedNurturing(t: LeadTable, now: int): (r: LeadTable)
    requires ValidLeads(t)
    ensures ValidLeads(r) && |r.rows| == |t.rows|
    ensures forall k :: 0 <= k < |t.rows| ==> r.rows[k] == Nurtured(t.rows[k], now)
  {
    QualifyPass(StalePass(t, now), now)
  }
}
