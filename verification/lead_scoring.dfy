/**
 * Lead scoring: the engagement counters a lead keeps in its notes, the
 * score and priority tier they give, the tracking events that bump them
 * (e-mail opens, link clicks, trial sign-ups), the hot-lead and all-leads
 * listings, and the maintenance pass that rewrites every lead's tier.
 */
module LeadScoring {
  import opened Common
  import opened Text
  import opened Store
  import opened Sorting

  /** The engagement counters of one lead. */
  datatype Factors = Factors(emailOpens: int, linkClicks: int, pricingViews: int, trialSignups: int, touchpoints: int)

  const NoFactors: Factors := Factors(0, 0, 0, 0, 0)

  /** Points per counted event, the cap on the score and the tier thresholds. */
  const EmailOpenPoints: int := 5
  const LinkClickPoints: int := 10
  const PricingViewPoints: int := 15
  const TrialSignupPoints: int := 50
  const TouchpointPoints: int := 5
  const ScoreCap: int := 100
  const HotThreshold: int := 80
  const WarmThreshold: int := 40

  /** No counter is negative. */
  predicate NonNegative(f: Factors)
  {
    f.emailOpens >= 0 && f.linkClicks >= 0 && f.pricingViews >= 0 && f.trialSignups >= 0 && f.touchpoints >= 0
  }

  /** Every counter of `f` is at most the matching counter of `g`. */
  predicate AtMost(f: Factors, g: Factors)
  {
    && f.emailOpens <= g.emailOpens && f.linkClicks <= g.linkClicks && f.pricingViews <= g.pricingViews
    && f.trialSignups <= g.trialSignups && f.touchpoints <= g.touchpoints
  }

  /** The counters written back to the notes column, every field present. */
  function ToNote(f: Factors): (n: Note)
    ensures n.FactorNote?
    ensures ParseFactors(Some(n)) == f
  {
    FactorNote(Some(f.emailOpens), Some(f.linkClicks), Some(f.pricingViews), Some(f.trialSignups), Some(f.touchpoints))
  }

  /**
   * `parseLeadFactors`: zero counters, overridden by the fields the notes'
   * object carries; missing notes, and notes that are not such an object,
   * give zero counters.
   */
  function ParseFactors(notes: Option<Note>): (f: Factors)
    ensures notes.None? || notes.value.TextNote? ==> f == NoFactors
    ensures notes.Some? && notes.value.FactorNote? ==>
      var n := notes.value;
      && (if n.emailOpens.Some? then f.emailOpens == n.emailOpens.value else f.emailOpens == 0)
      && (if n.linkClicks.Some? then f.linkClicks == n.linkClicks.value else f.linkClicks == 0)
      && (if n.pricingViews.Some? then f.pricingViews == n.pricingViews.value else f.pricingViews == 0)
      && (if n.trialSignups.Some? then f.trialSignups == n.trialSignups.value else f.trialSignups == 0)
      && (if n.touchpoints.Some? then f.touchpoints == n.touchpoints.value else f.touchpoints == 0)
  {
    match notes
    case None => NoFactors
    case Some(TextNote(_)) => NoFactors
    case Some(FactorNote(opens, clicks, pricing, trials, touches)) =>
      Factors(opens.GetOr(0), clicks.GetOr(0), pricing.GetOr(0), trials.GetOr(0), touches.GetOr(0))
  }

  /** A notes object that carries all five counters reads back as itself. */
  lemma NoteRoundTrip(n: Note)
    requires n.FactorNote? && n.emailOpens.Some? && n.linkClicks.Some? && n.pricingViews.Some?
    requires n.trialSignups.Some? && n.touchpoints.Some?
    ensures ToNote(ParseFactors(Some(n))) == n
  {
  }

  /** The uncapped weighted sum of the counters. */
  function Points(f: Factors): int
  {
    f.emailOpens * EmailOpenPoints + f.linkClicks * LinkClickPoints + f.pricingViews * PricingViewPoints
    + f.trialSignups * TrialSignupPoints + f.touchpoints * TouchpointPoints
  }

  /** `calculateLeadScore`: the weighted sum of the counters, capped at 100. */
  function Score(f: Factors): (s: int)
    ensures s <= ScoreCap
    ensures NonNegative(f) ==> 0 <= s
    ensures s == ScoreCap <==> Points(f) >= ScoreCap
  {
    Min(Points(f), ScoreCap)
  }

  /** More engagement never lowers the score. */
  lemma ScoreMonotone(f: Factors, g: Factors)
    requires AtMost(f, g) && NonNegative(f)
    ensures Score(f) <= Score(g)
  {
    assert Points(f) <= Points(g);
  }

  /** The priority tiers. */
  datatype Priority = Hot | Warm | Cold

  /** `getPriorityLevel`: hot from 80 points, warm from 40, cold below. */
  function PriorityOf(score: int): (p: Priority)
    ensures p == Hot <==> score >= HotThreshold
    ensures p == Warm <==> WarmThreshold <= score < HotThreshold
    ensures p == Cold <==> score < WarmThreshold
  {
    if score >= HotThreshold then Hot
    else if score >= WarmThreshold then Warm
    else Cold
  }

  /** The tier's name as stored in `interest_level`. */
  function PriorityName(p: Priority): (s: string)
    ensures ParsePriority(s) == Some(p)
  {
    match p
    case Hot => "hot"
    case Warm => "warm"
    case Cold => "cold"
  }

  /** Reading a stored tier name back; any other interest value is no tier. */
  function ParsePriority(s: string): (p: Option<Priority>)
    ensures p.Some? ==> s == (if p.value == Hot then "hot" else if p.value == Warm then "warm" else "cold")
  {
    if s == "hot" then Some(Hot)
    else if s == "warm" then Some(Warm)
    else if s == "cold" then Some(Cold)
    else None
  }

  /** The tier the counters give, as stored. */
  function Tier(f: Factors): string
  {
    PriorityName(PriorityOf(Score(f)))
  }

  /** The lead's stored tier is the one its notes' counters give. */
  predicate TierCurrent(l: Lead)
  {
    l.interest == Some(Tier(ParseFactors(l.notes)))
  }

  /**
   * The row update every tracking event ends with: the tier of the new
   * counters, the counters written to the notes, and the last interaction
   * and `updated_at` set to now.
   */
  function Record(l: Lead, f: Factors, now: int): (r: Lead)
    ensures TierCurrent(r) && ParseFactors(r.notes) == f
    ensures r.lastInteraction == Some(now) && r.updatedAt == now
    ensures r.id == l.id && r.email == l.email && r.name == l.name && r.source == l.source
    ensures r.status == l.status && r.converted == l.converted && r.createdAt == l.createdAt
  {
    l.(interest := Some(Tier(f)), notes := Some(ToNote(f)), lastInteraction := Some(now), updatedAt := now)
  }

  /** An e-mail open counts one open and one touchpoint. */
  function OpenedEmail(f: Factors): (g: Factors)
    ensures AtMost(f, g) && Points(g) == Points(f) + EmailOpenPoints + TouchpointPoints
  {
    f.(emailOpens := f.emailOpens + 1, touchpoints := f.touchpoints + 1)
  }

  /** A link click counts one click and one touchpoint, and one pricing view when the link contains `/pricing`. */
  function ClickedLink(f: Factors, url: string): (g: Factors)
    ensures AtMost(f, g)
    ensures Points(g) == Points(f) + LinkClickPoints + TouchpointPoints
      + (if Includes(url, "/pricing") then PricingViewPoints else 0)
  {
    f.(linkClicks := f.linkClicks + 1, touchpoints := f.touchpoints + 1,
       pricingViews := f.pricingViews + if Includes(url, "/pricing") then 1 else 0)
  }

  /** A trial sign-up counts one sign-up and one touchpoint. */
  function SignedUp(f: Factors): (g: Factors)
    ensures AtMost(f, g) && Points(g) == Points(f) + TrialSignupPoints + TouchpointPoints
  {
    f.(trialSignups := f.trialSignups + 1, touchpoints := f.touchpoints + 1)
  }

  /** Adding `gain` points to the uncapped sum adds them to the score, up to the cap. */
  lemma CappedGain(f: Factors, g: Factors, gain: int)
    requires gain >= 0 && Points(g) == Points(f) + gain
    ensures Score(g) == Min(Score(f) + gain, ScoreCap)
  {
  }

  /**
   * `trackEmailOpen`: an unknown e-mail changes nothing; otherwise the open
   * is counted and recorded, and the sales team is notified when the lead
   * is now hot and its stored tier was not already hot.
   */
  function TrackEmailOpen(t: LeadTable, email: string, now: int): (r: (LeadTable, bool))
    requires ValidLeads(t)
    ensures ValidLeads(r.0) && |r.0.rows| == |t.rows|
    ensures FindLead(t, email).None? ==> r == (t, false)
    ensures FindLead(t, email).Some? ==>
      var i := FindLead(t, email).value;
      var before := ParseFactors(t.rows[i].notes);
      var after := r.0.rows[i];
      && ParseFactors(after.notes) == before.(emailOpens := before.emailOpens + 1, touchpoints := before.touchpoints + 1)
      && Score(ParseFactors(after.notes)) == Min(Score(before) + 10, ScoreCap)
      && TierCurrent(after) && after.lastInteraction == Some(now) && after.status == t.rows[i].status
      && (r.1 <==> (Score(ParseFactors(after.notes)) >= HotThreshold && t.rows[i].interest != Some("hot")))
    ensures forall j :: 0 <= j < |t.rows| && t.rows[j].email != email ==> r.0.rows[j] == t.rows[j]
  {
    match FindLead(t, email)
    case None => (t, false)
    case Some(i) =>
      var f := OpenedEmail(ParseFactors(t.rows[i].notes));
      CappedGain(ParseFactors(t.rows[i].notes), f, EmailOpenPoints + TouchpointPoints);
      var p := PriorityOf(Score(f));
      (ChangeLead(t, i, Record(t.rows[i], f, now)), p == Hot && t.rows[i].interest != Some("hot"))
  }

  /**
   * `trackLinkClick`: like an e-mail open, counting a click, and a pricing
   * view when the link contains `/pricing`.
   */
  function TrackLinkClick(t: LeadTable, email: string, url: string, now: int): (r: (LeadTable, bool))
    requires ValidLeads(t)
    ensures ValidLeads(r.0) && |r.0.rows| == |t.rows|
    ensures FindLead(t, email).None? ==> r == (t, false)
    ensures FindLead(t, email).Some? ==>
      var i := FindLead(t, email).value;
      var before := ParseFactors(t.rows[i].notes);
      var after := r.0.rows[i];
      && AtMost(before, ParseFactors(after.notes))
      && ParseFactors(after.notes).pricingViews == before.pricingViews + (if Includes(url, "/pricing") then 1 else 0)
      && Score(ParseFactors(after.notes)) == Min(Score(before) + (if Includes(url, "/pricing") then 30 else 15), ScoreCap)
      && TierCurrent(after) && after.lastInteraction == Some(now) && after.status == t.rows[i].status
      && (r.1 <==> (Score(ParseFactors(after.notes)) >= HotThreshold && t.rows[i].interest != Some("hot")))
    ensures forall j :: 0 <= j < |t.rows| && t.rows[j].email != email ==> r.0.rows[j] == t.rows[j]
  {
    match FindLead(t, email)
    case None => (t, false)
    case Some(i) =>
      var f := ClickedLink(ParseFactors(t.rows[i].notes), url);
      CappedGain(ParseFactors(t.rows[i].notes), f,
        LinkClickPoints + TouchpointPoints + if Includes(url, "/pricing") then PricingViewPoints else 0);
      var p := PriorityOf(Score(f));
      (ChangeLead(t, i, Record(t.rows[i], f, now)), p == Hot && t.rows[i].interest != Some("hot"))
  }

  /** The source the trial sign-up gives a lead it creates. */
  const TrialSignupSource: string := "trial_signup"

  /**
   * `trackTrialSignup`: an unknown e-mail is first inserted (no name,
   * source `trial_signup`, interest `hot`) and scored from zero counters;
   * then the sign-up is counted and recorded and the status set to `trial`.
   * The notification always fires, with the new score.
   */
  function TrackTrialSignup(t: LeadTable, email: string, now: int): (r: (LeadTable, int))
    requires ValidLeads(t)
    ensures ValidLeads(r.0)
    ensures FindLead(r.0, email).Some?
    ensures var after := r.0.rows[FindLead(r.0, email).value];
      && after.status == Trial && TierCurrent(after) && after.lastInteraction == Some(now)
      && r.1 == Score(ParseFactors(after.notes))
    ensures FindLead(t, email).None? ==>
      && |r.0.rows| == |t.rows| + 1 && r.0.rows[|t.rows|].email == email
      && r.0.rows[|t.rows|].source == TrialSignupSource && r.0.rows[|t.rows|].name.None?
      && r.1 == 55 && r.0.rows[|t.rows|].interest == Some("warm")
    ensures FindLead(t, email).Some? ==>
      var i := FindLead(t, email).value;
      var before := ParseFactors(t.rows[i].notes);
      && |r.0.rows| == |t.rows|
      && ParseFactors(r.0.rows[i].notes) == before.(trialSignups := before.trialSignups + 1, touchpoints := before.touchpoints + 1)
      && r.1 == Min(Score(before) + 55, ScoreCap)
    ensures forall j :: 0 <= j < |t.rows| && t.rows[j].email != email ==> r.0.rows[j] == t.rows[j]
  {
    match FindLead(t, email)
    case None =>
      var t1 := InsertLead(t, email, None, TrialSignupSource, Some("hot"), now).0;
      var i := |t.rows|;
      assert FindLead(t1, email) == Some(i) by {
        assert t1.rows[i].email == email;
      }
      var f := SignedUp(NoFactors);
      var t2 := ChangeLead(t1, i, Record(t1.rows[i], f, now).(status := Trial));
      assert FindLead(t2, email) == Some(i);
      (t2, Score(f))
    case Some(i) =>
      var f := SignedUp(ParseFactors(t.rows[i].notes));
      CappedGain(ParseFactors(t.rows[i].notes), f, TrialSignupPoints + TouchpointPoints);
      var t2 := ChangeLead(t, i, Record(t.rows[i], f, now).(status := Trial));
      assert FindLead(t2, email) == Some(i);
      (t2, Score(f))
  }

  /**
   * A lead whose stored tier is current and hot stays hot through any
   * further open or click, and is not notified about again.
   */
  lemma {:induction false} HotLeadNotifiedOnce(t: LeadTable, email: string, url: string, now: int)
    requires ValidLeads(t)
    requires FindLead(t, email).Some?
    requires var l := t.rows[FindLead(t, email).value];
      TierCurrent(l) && l.interest == Some("hot") && NonNegative(ParseFactors(l.notes))
    ensures var r := TrackEmailOpen(t, email, now);
      !r.1 && r.0.rows[FindLead(t, email).value].interest == Some("hot")
    ensures var r := TrackLinkClick(t, email, url, now);
      !r.1 && r.0.rows[FindLead(t, email).value].interest == Some("hot")
  {
    var i := FindLead(t, email).value;
    var f := ParseFactors(t.rows[i].notes);
    assert PriorityName(PriorityOf(Score(f))) == "hot";
    assert ParsePriority(PriorityName(PriorityOf(Score(f)))) == Some(Hot);
    assert Score(f) >= HotThreshold;
  }

  /**
   * `updateLeadScore`: the lead with `email`, if any, gets `priority` as its
   * interest and `updated_at` set to now; the score is only logged.
   */
  function UpdateLeadScore(t: LeadTable, email: string, priority: string, now: int): (r: LeadTable)
    requires ValidLeads(t)
    ensures ValidLeads(r) && |r.rows| == |t.rows| && r.nextId == t.nextId
    ensures forall k :: 0 <= k < |t.rows| ==>
      r.rows[k] == if t.rows[k].email == email then t.rows[k].(interest := Some(priority), updatedAt := now)
                   else t.rows[k]
  {
    match FindLead(t, email)
    case None => t
    case Some(i) => ChangeLead(t, i, t.rows[i].(interest := Some(priority), updatedAt := now))
  }

  /** The lead's tier rewritten from its counters. */
  function Rescored(l: Lead, now: int): Lead
  {
    l.(interest := Some(Tier(ParseFactors(l.notes))), updatedAt := now)
  }

  /** No two leads share an e-mail. */
  predicate DistinctEmails(rows: seq<Lead>)
  {
    forall i, j :: 0 <= i < j < |rows| ==> rows[i].email != rows[j].email
  }

  /**
   * `r` is `t` after rescoring the leads of `snapshot`: a row whose e-mail
   * is in the snapshot has the tier of the snapshot's notes and `updated_at`
   * now, every other row is as it was.
   */
  ghost predicate RescoredBy(r: LeadTable, t: LeadTable, snapshot: seq<Lead>, now: int)
    requires |r.rows| == |t.rows|
  {
    && (forall k :: 0 <= k < |t.rows| ==>
          (forall j :: 0 <= j < |snapshot| ==> snapshot[j].email != t.rows[k].email) ==> r.rows[k] == t.rows[k])
    && (forall k, j :: 0 <= k < |t.rows| && 0 <= j < |snapshot| && snapshot[j].email == t.rows[k].email ==>
          r.rows[k] == t.rows[k].(interest := Some(Tier(ParseFactors(snapshot[j].notes))), updatedAt := now))
  }

  /**
   * The loop of `recalculateAllScores`: for each lead of the snapshot read
   * at the start, its e-mail's row gets the tier of the snapshot's notes.
   */
  function RescoreEach(t: LeadTable, snapshot: seq<Lead>, now: int): (r: LeadTable)
    requires ValidLeads(t) && DistinctEmails(snapshot)
    ensures ValidLeads(r) && |r.rows| == |t.rows| && r.nextId == t.nextId
    ensures RescoredBy(r, t, snapshot, now)
    decreases |snapshot|
  {
    if |snapshot| == 0 then t
    else
      var s := snapshot[0];
      var t1 := UpdateLeadScore(t, s.email, Tier(ParseFactors(s.notes)), now);
      var r := RescoreEach(t1, snapshot[1..], now);
      RescoreChain(r, t1, t, snapshot, now);
      r
  }

  /** Rescoring the snapshot's first lead and then the rest rescores them all. */
  lemma RescoreChain(r: LeadTable, t1: LeadTable, t: LeadTable, snapshot: seq<Lead>, now: int)
    requires |snapshot| > 0 && DistinctEmails(snapshot)
    requires |t1.rows| == |t.rows| && |r.rows| == |t.rows|
    requires forall k :: 0 <= k < |t.rows| ==>
      t1.rows[k] == if t.rows[k].email == snapshot[0].email
        then t.rows[k].(interest := Some(Tier(ParseFactors(snapshot[0].notes))), updatedAt := now)
        else t.rows[k]
    requires RescoredBy(r, t1, snapshot[1..], now)
    ensures RescoredBy(r, t, snapshot, now)
  {
    var s := snapshot[0];
    assert forall j :: 0 < j < |snapshot| ==> snapshot[j].email != s.email;
    assert forall j :: 0 <= j < |snapshot[1..]| ==> snapshot[1..][j] == snapshot[j + 1];
    forall k, j | 0 <= k < |t.rows| && 0 <= j < |snapshot| && snapshot[j].email == t.rows[k].email
      ensures r.rows[k] == t.rows[k].(interest := Some(Tier(ParseFactors(snapshot[j].notes))), updatedAt := now)
    {
      if j > 0 {
        assert t1.rows[k] == t.rows[k];
        assert snapshot[1..][j - 1] == snapshot[j];
      } else {
        assert forall j' :: 0 <= j' < |snapshot[1..]| ==> snapshot[1..][j'].email != t1.rows[k].email;
      }
    }
  }

  /**
   * `recalculateAllScores`: every lead's stored tier is rewritten from its
   * counters; nothing but the tier and `updated_at` changes.
   */
  function RecalculateAllScores(t: LeadTable, now: int): (r: LeadTable)
    requires ValidLeads(t)
    ensures ValidLeads(r) && |r.rows| == |t.rows| && r.nextId == t.nextId
    ensures forall k :: 0 <= k < |r.rows| ==> TierCurrent(r.rows[k]) && r.rows[k].updatedAt == now
    ensures forall k :: 0 <= k < |r.rows| ==>
      r.rows[k] == t.rows[k].(interest := r.rows[k].interest, updatedAt := now)
  {
    var r := RescoreEach(t, t.rows, now);
    assert forall k :: 0 <= k < |t.rows| ==> r.rows[k] == Rescored(t.rows[k], now);
    r
  }

  /** Recalculating twice is recalculating once; on current tiers it only touches `updated_at`. */
  lemma RecalculateIdempotent(t: LeadTable, now: int)
    requires ValidLeads(t)
    ensures RecalculateAllScores(RecalculateAllScores(t, now), now) == RecalculateAllScores(t, now)
    ensures (forall k :: 0 <= k < |t.rows| ==> TierCurrent(t.rows[k])) ==>
      forall k :: 0 <= k < |t.rows| ==> RecalculateAllScores(t, now).rows[k] == t.rows[k].(updatedAt := now)
  {
    var once := RecalculateAllScores(t, now);
    var twice := RecalculateAllScores(once, now);
    forall k | 0 <= k < |once.rows|
      ensures twice.rows[k] == once.rows[k]
    {
      var a, b := once.rows[k], twice.rows[k];
      assert b == a.(interest := b.interest, updatedAt := now);
      assert TierCurrent(a) && TierCurrent(b) && a.updatedAt == now;
    }
    assert twice.rows == once.rows;
    if forall k :: 0 <= k < |t.rows| ==> TierCurrent(t.rows[k]) {
      forall k | 0 <= k < |t.rows|
        ensures once.rows[k] == t.rows[k].(updatedAt := now)
      {
        assert once.rows[k] == t.rows[k].(interest := once.rows[k].interest, updatedAt := now);
        assert TierCurrent(once.rows[k]) && TierCurrent(t.rows[k]);
      }
    }
  }

  // ------------------------------------------------------------ listings

  /** One entry of a scored listing. */
  datatype LeadScore = LeadScore(email: string, score: int, factors: Factors, priority: Priority, lastUpdated: int)

  /** The listing entry of a lead, with the given tier. */
  function Scored(l: Lead, p: Priority): (s: LeadScore)
    ensures s.email == l.email && s.factors == ParseFactors(l.notes) && s.score == Score(s.factors)
    ensures s.priority == p && s.lastUpdated == l.updatedAt
  {
    var f := ParseFactors(l.notes);
    LeadScore(l.email, Score(f), f, p, l.updatedAt)
  }

  predicate HasInteraction(l: Lead) { l.lastInteraction.Some? }

  /** The sort key of `ORDER BY last_interaction DESC` among leads that have one. */
  function InteractionKey(l: Lead): int
  {
    if l.lastInteraction.Some? then -l.lastInteraction.value else 0
  }

  /** `a` may come before `b` in `ORDER BY last_interaction DESC`, where a missing value sorts last. */
  predicate NoEarlier(a: Lead, b: Lead)
  {
    b.lastInteraction.None? || (a.lastInteraction.Some? && a.lastInteraction.value >= b.lastInteraction.value)
  }

  /** The leads ordered by last interaction, latest first and leads without one last. */
  function ByLastInteraction(rows: seq<Lead>): (r: seq<Lead>)
    ensures multiset(r) == multiset(rows) && |r| == |rows|
    ensures forall i, j :: 0 <= i < j < |r| ==> NoEarlier(r[i], r[j])
  {
    var parts := Partition(rows, HasInteraction);
    var sorted := SortBy(parts.0, InteractionKey);
    SortedInteractions(parts.0);
    LatestFirst(sorted, parts.1);
    sorted + parts.1
  }

  /** Sorting leads that all have an interaction keeps them all with one. */
  lemma SortedInteractions(xs: seq<Lead>)
    requires forall k :: 0 <= k < |xs| ==> HasInteraction(xs[k])
    ensures forall k :: 0 <= k < |SortBy(xs, InteractionKey)| ==> HasInteraction(SortBy(xs, InteractionKey)[k])
  {
    var sorted := SortBy(xs, InteractionKey);
    forall k | 0 <= k < |sorted| ensures HasInteraction(sorted[k]) {
      SortByMembers(xs, InteractionKey, sorted[k]);
    }
  }

  /** Leads with an interaction, latest first, followed by leads without one, are in `NoEarlier` order. */
  lemma LatestFirst(sorted: seq<Lead>, rest: seq<Lead>)
    requires forall k :: 0 <= k < |sorted| ==> HasInteraction(sorted[k])
    requires SortedBy(sorted, InteractionKey)
    requires forall k :: 0 <= k < |rest| ==> !HasInteraction(rest[k])
    ensures forall i, j :: 0 <= i < j < |sorted + rest| ==> NoEarlier((sorted + rest)[i], (sorted + rest)[j])
  {
    var r := sorted + rest;
    forall i, j | 0 <= i < j < |r| ensures NoEarlier(r[i], r[j]) {
      if j < |sorted| {
        assert r[i] == sorted[i] && r[j] == sorted[j];
        assert InteractionKey(sorted[i]) <= InteractionKey(sorted[j]);
      } else {
        assert r[j] == rest[j - |sorted|];
      }
    }
  }

  /** `LIMIT n`: the first `n` elements; a negative limit keeps all. */
  function Limit<T>(xs: seq<T>, n: int): (r: seq<T>)
    ensures |r| <= |xs| && r == xs[..|r|]
    ensures n >= 0 ==> |r| == Min(n, |xs|)
    ensures n < 0 ==> r == xs
  {
    if n < 0 || n >= |xs| then xs else xs[..n]
  }

  /** The default number of hot leads listed. */
  const HotLeadsLimit: int := 20

  predicate StoredHot(l: Lead) { l.interest == Some("hot") }

  /** A lead is listed by `ByLastInteraction` exactly when it is one of the rows. */
  lemma OrderedMembers(rows: seq<Lead>, l: Lead)
    ensures l in ByLastInteraction(rows) <==> l in rows
  {
    assert l in ByLastInteraction(rows) <==> l in multiset(ByLastInteraction(rows));
    assert l in rows <==> l in multiset(rows);
  }

  /** The hot leads of the table, latest interaction first. */
  function HotOrdered(t: LeadTable): (r: seq<Lead>)
    ensures forall l :: l in r <==> l in t.rows && StoredHot(l)
    ensures forall i, j :: 0 <= i < j < |r| ==> NoEarlier(r[i], r[j])
  {
    var hot := Partition(t.rows, StoredHot).0;
    forall l ensures l in hot <==> l in t.rows && StoredHot(l) {
      PartitionMembers(t.rows, StoredHot, l);
    }
    forall l ensures l in ByLastInteraction(hot) <==> l in hot {
      OrderedMembers(hot, l);
    }
    ByLastInteraction(hot)
  }

  /** A prefix of an ordered listing holds its latest entries: whatever is cut is no later than anything kept. */
  lemma LimitKeepsLatest(ordered: seq<Lead>, limit: int, l: Lead)
    requires forall i, j :: 0 <= i < j < |ordered| ==> NoEarlier(ordered[i], ordered[j])
    requires l in ordered && l !in Limit(ordered, limit)
    ensures forall k :: 0 <= k < |Limit(ordered, limit)| ==> NoEarlier(Limit(ordered, limit)[k], l)
  {
    var r := Limit(ordered, limit);
    var m :| 0 <= m < |ordered| && ordered[m] == l;
    assert m >= |r| by {
      assert forall k :: 0 <= k < |r| ==> r[k] == ordered[k];
    }
    forall k | 0 <= k < |r| ensures NoEarlier(r[k], l) {
      assert r[k] == ordered[k];
    }
  }

  /** What a prefix of an ordered listing keeps. */
  lemma TopOf(ordered: seq<Lead>, limit: int)
    requires forall i, j :: 0 <= i < j < |ordered| ==> NoEarlier(ordered[i], ordered[j])
    ensures var r := Limit(ordered, limit);
      && (forall k :: 0 <= k < |r| ==> r[k] in ordered)
      && (forall i, j :: 0 <= i < j < |r| ==> NoEarlier(r[i], r[j]))
      && (forall l :: l in ordered && l !in r ==> forall k :: 0 <= k < |r| ==> NoEarlier(r[k], l))
  {
    var r := Limit(ordered, limit);
    assert forall k :: 0 <= k < |r| ==> r[k] == ordered[k];
    forall l | l in ordered && l !in r
      ensures forall k :: 0 <= k < |r| ==> NoEarlier(r[k], l)
    {
      LimitKeepsLatest(ordered, limit, l);
    }
  }

  /**
   * The rows `getHotLeads` reads: the leads whose stored tier is hot, latest
   * interaction first, at most `limit` of them. A hot lead left out has no
   * later interaction than any listed one.
   */
  function HotLeadRows(t: LeadTable, limit: int): (r: seq<Lead>)
    ensures forall k :: 0 <= k < |r| ==> r[k] in t.rows && StoredHot(r[k])
    ensures forall i, j :: 0 <= i < j < |r| ==> NoEarlier(r[i], r[j])
    ensures limit >= 0 ==> |r| <= limit
    ensures forall l :: l in t.rows && StoredHot(l) && l !in r ==> forall k :: 0 <= k < |r| ==> NoEarlier(r[k], l)
    ensures limit < 0 ==> forall l :: l in t.rows && StoredHot(l) ==> l in r
  {
    var ordered := HotOrdered(t);
    TopOf(ordered, limit);
    Limit(ordered, limit)
  }

  /** `getHotLeads`: the hot rows' scores, every entry marked hot whatever its score. */
  function GetHotLeads(t: LeadTable, limit: int): (r: seq<LeadScore>)
    ensures |r| == |HotLeadRows(t, limit)|
    ensures forall k :: 0 <= k < |r| ==> r[k].priority == Hot
    ensures forall k :: 0 <= k < |r| ==> exists l :: l in t.rows && StoredHot(l) && r[k] == Scored(l, Hot)
  {
    var rows := HotLeadRows(t, limit);
    var r := seq(|rows|, k requires 0 <= k < |rows| => Scored(rows[k], Hot));
    assert forall k :: 0 <= k < |r| ==> rows[k] in t.rows && StoredHot(rows[k]) && r[k] == Scored(rows[k], Hot);
    r
  }

  /** A lead's listing entry with the tier its own score gives. */
  function ScoredByScore(l: Lead): LeadScore
  {
    Scored(l, PriorityOf(Score(ParseFactors(l.notes))))
  }

  /** The entries of `rows`, in order. */
  function ScoreEach(rows: seq<Lead>): (r: seq<LeadScore>)
    ensures |r| == |rows| && forall k :: 0 <= k < |rows| ==> r[k] == ScoredByScore(rows[k])
  {
    if |rows| == 0 then [] else [ScoredByScore(rows[0])] + ScoreEach(rows[1..])
  }

  /** `getAllLeadsWithScores`: every lead with its score and the tier it gives, latest interaction first. */
  function GetAllLeadsWithScores(t: LeadTable): (r: seq<LeadScore>)
    ensures |r| == |t.rows|
    ensures forall k :: 0 <= k < |r| ==> r[k].priority == PriorityOf(r[k].score)
    ensures forall k :: 0 <= k < |r| ==> EntryOfRow(t.rows, r[k])
    ensures forall l :: l in t.rows ==> HasEntry(r, l)
    ensures exists rows :: OrderedListing(t.rows, rows, r)
  {
    var rows := ByLastInteraction(t.rows);
    SameMembers(t.rows);
    var r := ScoreEach(rows);
    ScoredFromRows(t.rows, rows, r);
    RowsScored(t.rows, rows, r);
    assert OrderedListing(t.rows, rows, r);
    r
  }

  /**
   * `r` lists the entries of `rows`, position by position, and `rows` is a
   * reordering of `all` by last interaction, latest first and leads without
   * one last.
   */
  ghost predicate OrderedListing(all: seq<Lead>, rows: seq<Lead>, r: seq<LeadScore>)
  {
    && multiset(rows) == multiset(all)
    && (forall i, j :: 0 <= i < j < |rows| ==> NoEarlier(rows[i], rows[j]))
    && |r| == |rows|
    && forall k :: 0 <= k < |r| ==> r[k] == ScoredByScore(rows[k])
  }

  /** The ordered listing holds exactly the rows. */
  lemma SameMembers(rows: seq<Lead>)
    ensures forall l :: l in ByLastInteraction(rows) <==> l in rows
  {
    forall l ensures l in ByLastInteraction(rows) <==> l in rows {
      OrderedMembers(rows, l);
    }
  }

  /** `s` is the listing entry of one of `rows`. */
  ghost predicate EntryOfRow(rows: seq<Lead>, s: LeadScore)
  {
    exists l :: l in rows && s == ScoredByScore(l)
  }

  /** The listing `r` has an entry for `l`. */
  ghost predicate HasEntry(r: seq<LeadScore>, l: Lead)
  {
    exists k :: 0 <= k < |r| && r[k] == ScoredByScore(l)
  }

  /** Every entry of a scored reordering of `all` is the entry of a lead of `all`. */
  lemma ScoredFromRows(all: seq<Lead>, rows: seq<Lead>, r: seq<LeadScore>)
    requires forall l :: l in rows ==> l in all
    requires |r| == |rows| && forall k :: 0 <= k < |rows| ==> r[k] == ScoredByScore(rows[k])
    ensures forall k :: 0 <= k < |r| ==> EntryOfRow(all, r[k])
  {
    forall k | 0 <= k < |r| ensures EntryOfRow(all, r[k]) {
      var l := rows[k];
      assert l in rows;
      assert l in all && r[k] == ScoredByScore(l);
    }
  }

  /** Every lead of `all` has its entry in a scored reordering of `all`. */
  lemma RowsScored(all: seq<Lead>, rows: seq<Lead>, r: seq<LeadScore>)
    requires forall l :: l in all ==> l in rows
    requires |r| == |rows| && forall k :: 0 <= k < |rows| ==> r[k] == ScoredByScore(rows[k])
    ensures forall l :: l in all ==> HasEntry(r, l)
  {
    forall l | l in all ensures HasEntry(r, l) {
      assert l in rows;
      var k :| 0 <= k < |rows| && rows[k] == l;
      assert r[k] == ScoredByScore(l);
    }
  }
}
