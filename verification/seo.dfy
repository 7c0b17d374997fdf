/**
 * The SEO content generator's pure parts: the penalty-based content
 * checker, the title variations and meta description it writes, and how it
 * picks blog templates for a topic and for the monthly calendar.
 */
module Seo {
  import opened Common
  import opened Text

  /** A blog template: its title, slug, target keywords and category (the article bodies are not modelled). */
  datatype BlogPost = BlogPost(title: string, slug: string, keywords: seq<string>, category: string)

  /** The six blog templates, in table order. */
  const BlogTemplates: seq<BlogPost> := [
    BlogPost("The Complete Guide to AI Trading Strategies in 2025",
             "complete-guide-ai-trading-strategies-2025",
             ["AI trading", "trading strategies", "algorithmic trading", "automated trading", "machine learning trading"],
             "Education"),
    BlogPost("7 Technical Indicators Every Trader Should Master",
             "7-technical-indicators-every-trader-should-master",
             ["technical indicators", "RSI", "MACD", "Bollinger Bands", "trading indicators", "technical analysis"],
             "Education"),
    BlogPost("TradeFlows Pro vs. Traditional Trading Platforms: An Honest Comparison",
             "tradeflows-pro-vs-traditional-platforms-comparison",
             ["trading platform comparison", "TradeFlows Pro", "best trading platform", "trading software review"],
             "Product"),
    BlogPost("How to Build a $10,000 Trading Portfolio: A Step-by-Step Guide",
             "how-to-build-10000-trading-portfolio",
             ["trading portfolio", "portfolio management", "investment strategy", "risk management"],
             "Strategy"),
    BlogPost("Day Trading vs. Swing Trading: Which Strategy Is Right for You?",
             "day-trading-vs-swing-trading-which-is-right",
             ["day trading", "swing trading", "trading strategies", "trading styles"],
             "Education"),
    BlogPost("The Psychology of Trading: Mastering Your Emotions for Better Results",
             "psychology-of-trading-mastering-emotions",
             ["trading psychology", "trading emotions", "mental trading", "trading discipline"],
             "Psychology")]

  // ---------------------------------------------------------------------
  // analyzeSEO
  // ---------------------------------------------------------------------

  /** One check of the analysis: what failing it costs, the issue it reports (if any) and its advice. */
  datatype Check = Check(penalty: nat, issue: Option<string>, advice: string)

  const LengthCheck: Check :=
    Check(20, Some("Content is too short (< 1000 characters)"), "Aim for at least 1500-2000 words for better SEO")
  const KeywordCheck: Check :=
    Check(15, Some("Insufficient keyword usage"), "Naturally incorporate more target keywords in the content")
  const H1Check: Check :=
    Check(10, Some("Missing H1 heading"), "Add a clear H1 heading at the top")
  const H2Check: Check :=
    Check(10, Some("No H2 subheadings found"), "Break content into sections with H2 headings")
  /** The list check lowers the score and advises, but reports no issue. */
  const ListCheck: Check :=
    Check(5, None, "Add bullet points or numbered lists for better readability")
  const LinkCheck: Check :=
    Check(10, Some("No links found"), "Add relevant internal and external links")

  /** The checks in the order the analysis runs them. */
  const Checks: seq<Check> := [LengthCheck, KeywordCheck, H1Check, H2Check, ListCheck, LinkCheck]

  /** The result of an analysis: the score and the issues and recommendations in check order. */
  datatype Analysis = Analysis(score: int, issues: seq<string>, recommendations: seq<string>)

  /** The keywords whose lower-case form occurs in the lower-case content, in order. */
  function MatchedKeywords(content: string, keywords: seq<string>): (r: seq<string>)
    ensures |r| <= |keywords|
    ensures forall k :: k in r <==> k in keywords && Includes(Lower(content), Lower(k))
    decreases |keywords|
  {
    if |keywords| == 0 then []
    else
      var n := |keywords| - 1;
      var rest := MatchedKeywords(content, keywords[..n]);
      assert keywords == keywords[..n] + [keywords[n]];
      if Includes(Lower(content), Lower(keywords[n])) then rest + [keywords[n]] else rest
  }

  /** `keywordCount < keywords.length * 0.5`, in the reals the comparison is made in. */
  predicate FewKeywords(content: string, keywords: seq<string>)
  {
    (|MatchedKeywords(content, keywords)| as real) < (|keywords| as real) * 0.5
  }

  /** The outcome of each check, in check order: `true` where the content fails it. */
  function Failures(content: string, keywords: seq<string>): (f: seq<bool>)
    ensures |f| == |Checks|
  {
    [ |content| < 1000,
      FewKeywords(content, keywords),
      !Includes(content, "# "),
      !Includes(content, "## "),
      !(Includes(content, "- ") || Includes(content, "1. ")),
      !Includes(content, "http") ]
  }

  /** The issue a check reports when it fails: none when it passes or has no issue. */
  function Reported(failed: bool, c: Check): (r: seq<string>)
    ensures |r| <= 1
  {
    if failed && c.issue.Some? then [c.issue.value] else []
  }

  /** What a check costs the score: its penalty when it fails, nothing when it passes. */
  function Cost(failed: bool, c: Check): (r: nat)
    ensures r <= c.penalty
    ensures r == 0 <==> !failed || c.penalty == 0
  {
    if failed then c.penalty else 0
  }

  /** One for a failing check, none for a passing one. */
  function Tick(failed: bool): nat
  {
    if failed then 1 else 0
  }

  /** What one failing check adds to the analysis so far; a passing check adds nothing. */
  function Flag(a: Analysis, failed: bool, c: Check): (r: Analysis)
    ensures !failed ==> r == a
    ensures failed ==> r.score == a.score - c.penalty
    ensures r.score == a.score - Cost(failed, c)
    ensures |r.recommendations| == |a.recommendations| + Tick(failed)
    ensures failed ==> r.recommendations == a.recommendations + [c.advice]
    ensures r.issues == a.issues + Reported(failed, c)
  {
    if !failed then a
    else Analysis(a.score - c.penalty, a.issues + Reported(failed, c), a.recommendations + [c.advice])
  }

  /** The checks run in order from a score of 100 and nothing reported. */
  function Tally(checks: seq<Check>, failed: seq<bool>): (a: Analysis)
    requires |failed| == |checks|
    decreases |checks|
  {
    if |checks| == 0 then Analysis(100, [], [])
    else
      var n := |checks| - 1;
      Flag(Tally(checks[..n], failed[..n]), failed[n], checks[n])
  }

  /**
   * `analyzeSEO`: the score starts at 100 and loses at most 70, reaching
   * 100 only when every check passes; each failed check recommends once
   * and reports at most one issue, and the list check reports none.
   */
  function AnalyzeSeo(content: string, keywords: seq<string>): (a: Analysis)
    ensures 30 <= a.score <= 100
    ensures a.score == 100 <==> |a.recommendations| == 0
    ensures |a.issues| <= 5 && |a.issues| <= |a.recommendations| <= |Checks|
  {
    var f := Failures(content, keywords);
    SixChecksCounts(Checks, f);
    Tally(Checks, f)
  }

  /** The penalty a recommendation stands for: that of the check that gives it, 0 for any other text. */
  function PenaltyOf(advice: string): nat
  {
    if advice == LengthCheck.advice then LengthCheck.penalty
    else if advice == KeywordCheck.advice then KeywordCheck.penalty
    else if advice == H1Check.advice then H1Check.penalty
    else if advice == H2Check.advice then H2Check.penalty
    else if advice == ListCheck.advice then ListCheck.penalty
    else if advice == LinkCheck.advice then LinkCheck.penalty
    else 0
  }

  /** The penalties of a list of recommendations, added up. */
  function Penalties(advice: seq<string>): int
  {
    if |advice| == 0 then 0 else Penalties(advice[..|advice| - 1]) + PenaltyOf(advice[|advice| - 1])
  }

  /** The checks that failed, in order. */
  function Failed(checks: seq<Check>, failed: seq<bool>): (r: seq<Check>)
    requires |failed| == |checks|
    ensures |r| <= |checks|
    decreases |checks|
  {
    if |checks| == 0 then []
    else
      var n := |checks| - 1;
      Failed(checks[..n], failed[..n]) + (if failed[n] then [checks[n]] else [])
  }

  /** The issues reported by a list of checks, those without an issue skipped. */
  function IssuesOf(cs: seq<Check>): (r: seq<string>)
    ensures |r| <= |cs|
  {
    if |cs| == 0 then []
    else
      var n := |cs| - 1;
      IssuesOf(cs[..n]) + (if cs[n].issue.Some? then [cs[n].issue.value] else [])
  }

  /** The advice of a list of checks, in order. */
  function AdviceOf(cs: seq<Check>): (r: seq<string>)
    ensures |r| == |cs|
    ensures forall k :: 0 <= k < |cs| ==> r[k] == cs[k].advice
  {
    seq(|cs|, k requires 0 <= k < |cs| => cs[k].advice)
  }

  /**
   * Running checks yields the advice of each failing check and the issue of
   * each failing check that reports one, both in check order.
   */
  lemma {:induction false} TallyLists(checks: seq<Check>, failed: seq<bool>)
    requires |failed| == |checks|
    ensures Tally(checks, failed).recommendations == AdviceOf(Failed(checks, failed))
    ensures Tally(checks, failed).issues == IssuesOf(Failed(checks, failed))
    decreases |checks|
  {
    if |checks| > 0 {
      var n := |checks| - 1;
      TallyLists(checks[..n], failed[..n]);
      var fs := Failed(checks[..n], failed[..n]);
      if failed[n] {
        assert AdviceOf(fs + [checks[n]]) == AdviceOf(fs) + [checks[n].advice];
        assert (fs + [checks[n]])[..|fs|] == fs;
      } else {
        assert fs + [] == fs;
      }
    }
  }

  /** Running checks lowers the score by exactly the penalties of the advice given. */
  lemma {:induction false} TallyScore(checks: seq<Check>, failed: seq<bool>)
    requires |failed| == |checks|
    requires forall k :: 0 <= k < |checks| ==> PenaltyOf(checks[k].advice) == checks[k].penalty
    ensures Tally(checks, failed).score == 100 - Penalties(Tally(checks, failed).recommendations)
    decreases |checks|
  {
    if |checks| > 0 {
      var n := |checks| - 1;
      TallyScore(checks[..n], failed[..n]);
      var prev := Tally(checks[..n], failed[..n]).recommendations;
      if failed[n] {
        var next := prev + [checks[n].advice];
        assert next[..|prev|] == prev && next[|prev|] == checks[n].advice;
        assert Penalties(next) == Penalties(prev) + checks[n].penalty;
      }
    }
  }

  /** Each check's advice stands for that check's penalty. */
  lemma PenaltiesMatch()
    ensures forall k :: 0 <= k < |Checks| ==> PenaltyOf(Checks[k].advice) == Checks[k].penalty
  {
  }

  /** `## ` contains `# `: content with an H2 heading always passes the H1 check. */
  lemma H2ImpliesH1(content: string)
    ensures Includes(content, "## ") ==> Includes(content, "# ")
  {
    if Includes(content, "## ") {
      var i := IndexOf(content, "## ").value;
      assert "## "[1..3] == "# ";
      assert OccursAt("## ", "# ", 1);
      IncludesIff("## ", "# ");
      IncludesWithin(content, "## ", "# ", i);
    }
  }

  /** The keyword check fails exactly when fewer than half the keywords occur; never for no keywords. */
  lemma FewKeywordsIff(content: string, keywords: seq<string>)
    ensures FewKeywords(content, keywords) <==> 2 * |MatchedKeywords(content, keywords)| < |keywords|
    ensures |keywords| == 0 ==> !FewKeywords(content, keywords)
  {
  }

  /**
   * The analysis: its score is 100 less the penalties of its
   * recommendations and lies in [30, 100]; there is one recommendation per
   * failed check and one issue per failed check other than the list check,
   * so at most 5 issues and never more issues than recommendations; the
   * keyword issue is reported exactly when fewer than half the keywords
   * occur; and "Missing H1 heading" is only ever reported together with
   * "No H2 subheadings found".
   */
  lemma AnalyzeSeoReport(content: string, keywords: seq<string>)
    ensures var a := AnalyzeSeo(content, keywords);
      && a.score == 100 - Penalties(a.recommendations)
      && 30 <= a.score <= 100
      && (a.score == 100 <==> |a.recommendations| == 0)
      && |a.issues| <= 5 && |a.issues| <= |a.recommendations| <= 6
      && (KeywordCheck.issue.value in a.issues <==> 2 * |MatchedKeywords(content, keywords)| < |keywords|)
      && (H1Check.issue.value in a.issues ==> H2Check.issue.value in a.issues)
      && (H1Check.issue.value in a.issues <==> !Includes(content, "# "))
  {
    var f := Failures(content, keywords);
    PenaltiesMatch();
    TallyScore(Checks, f);
    FewKeywordsIff(content, keywords);
    H2ImpliesH1(content);
    AnalyzeSeoSteps(content, keywords);
  }

  /** The issues of the checks are pairwise different texts. */
  lemma IssuesDistinct()
    ensures forall j, k :: 0 <= j < k < |Checks| && Checks[j].issue.Some? && Checks[k].issue.Some? ==>
      Checks[j].issue.value != Checks[k].issue.value
  {
  }

  /** The analysis, check by check. */
  lemma AnalyzeSeoSteps(content: string, keywords: seq<string>)
    ensures var f := Failures(content, keywords);
      var a := AnalyzeSeo(content, keywords);
      && (KeywordCheck.issue.value in a.issues <==> f[1])
      && (H1Check.issue.value in a.issues <==> f[2])
      && (H2Check.issue.value in a.issues <==> f[3])
  {
    var f := Failures(content, keywords);
    IssuesDistinct();
    SixChecksIssues(Checks, f, 1);
    SixChecksIssues(Checks, f, 2);
    SixChecksIssues(Checks, f, 3);
  }

  /** Six checks, tallied one at a time. */
  lemma TallySix(cs: seq<Check>, f: seq<bool>)
    requires |cs| == 6 && |f| == 6
    ensures var a := Tally(cs, f);
      && a.score == 100 - Cost(f[0], cs[0]) - Cost(f[1], cs[1]) - Cost(f[2], cs[2])
         - Cost(f[3], cs[3]) - Cost(f[4], cs[4]) - Cost(f[5], cs[5])
      && |a.recommendations| == Tick(f[0]) + Tick(f[1]) + Tick(f[2]) + Tick(f[3]) + Tick(f[4]) + Tick(f[5])
      && a.issues == Reported(f[0], cs[0]) + Reported(f[1], cs[1]) + Reported(f[2], cs[2])
         + Reported(f[3], cs[3]) + Reported(f[4], cs[4]) + Reported(f[5], cs[5])
  {
    assert cs[..1][..0] == [] && f[..1][..0] == [];
    assert cs[..2][..1] == cs[..1] && f[..2][..1] == f[..1];
    assert cs[..3][..2] == cs[..2] && f[..3][..2] == f[..2];
    assert cs[..4][..3] == cs[..3] && f[..4][..3] == f[..3];
    assert cs[..5][..4] == cs[..4] && f[..5][..4] == f[..4];
    assert [] + Reported(f[0], cs[0]) == Reported(f[0], cs[0]);
    var a0 := Analysis(100, [], []);
    var a1 := Flag(a0, f[0], cs[0]);
    var a2 := Flag(a1, f[1], cs[1]);
    var a3 := Flag(a2, f[2], cs[2]);
    var a4 := Flag(a3, f[3], cs[3]);
    var a5 := Flag(a4, f[4], cs[4]);
    assert Tally(cs[..1], f[..1]) == a1;
    assert Tally(cs[..2], f[..2]) == a2;
    assert Tally(cs[..3], f[..3]) == a3;
    assert Tally(cs[..4], f[..4]) == a4;
    assert Tally(cs[..5], f[..5]) == a5;
    assert a1.issues == Reported(f[0], cs[0]);
  }

  /**
   * Six checks, the fifth without an issue, each costing at least 1 and all
   * together at most 70: the score stays in [30, 100], and is 100 only with
   * no recommendation; there are at most 5 issues, and no more issues than
   * recommendations.
   */
  lemma SixChecksCounts(cs: seq<Check>, f: seq<bool>)
    requires |cs| == 6 && |f| == 6 && cs[4].issue.None?
    requires forall k :: 0 <= k < 6 ==> cs[k].penalty >= 1
    requires cs[0].penalty + cs[1].penalty + cs[2].penalty + cs[3].penalty + cs[4].penalty + cs[5].penalty <= 70
    ensures var a := Tally(cs, f);
      && 30 <= a.score <= 100
      && (a.score == 100 <==> |a.recommendations| == 0)
      && |a.issues| <= 5 && |a.issues| <= |a.recommendations| <= 6
  {
    TallySix(cs, f);
    assert forall k :: 0 <= k < 6 ==> |Reported(f[k], cs[k])| <= Tick(f[k]);
    assert forall k :: 0 <= k < 6 ==> (Cost(f[k], cs[k]) == 0 <==> Tick(f[k]) == 0);
    assert Reported(f[4], cs[4]) == [];
  }

  /** With pairwise different issues, a check's issue is reported exactly when it fails. */
  lemma SixChecksIssues(cs: seq<Check>, f: seq<bool>, k: nat)
    requires |cs| == 6 && |f| == 6 && k < 6 && cs[k].issue.Some?
    requires forall j :: 0 <= j < 6 && j != k && cs[j].issue.Some? ==> cs[j].issue.value != cs[k].issue.value
    ensures cs[k].issue.value in Tally(cs, f).issues <==> f[k]
  {
    TallySix(cs, f);
    var x := cs[k].issue.value;
    assert forall j :: 0 <= j < 6 ==> (x in Reported(f[j], cs[j]) <==> j == k && f[k]);
  }

  // ---------------------------------------------------------------------
  // Titles and meta descriptions
  // ---------------------------------------------------------------------

  /** The text around the topic in each title variation. */
  const TitleFrames: seq<(string, string)> := [
    ("The Complete Guide to ", ""),
    ("", ": Everything You Need to Know in 2025"),
    ("How to Master ", ": A Step-by-Step Guide"),
    ("", " Explained: Beginner to Advanced"),
    ("Top 10 Tips for ", " Success"),
    ("", " vs [Alternative]: Which Is Better?"),
    ("The Ultimate ", " Strategy Guide"),
    ("", ": Common Mistakes and How to Avoid Them")]

  /** `generateTitleVariations`: eight titles built around the topic. */
  function TitleVariations(topic: string): (r: seq<string>)
    ensures |r| == 8
    ensures forall k :: 0 <= k < |r| ==> Includes(r[k], topic)
  {
    var r := seq(|TitleFrames|, k requires 0 <= k < |TitleFrames| => TitleFrames[k].0 + topic + TitleFrames[k].1);
    forall k | 0 <= k < |r|
      ensures Includes(r[k], topic)
    {
      IncludesMiddle(TitleFrames[k].0, topic, TitleFrames[k].1);
    }
    r
  }

  /** `parts.join(sep)` with a separator string. */
  function JoinWith(parts: seq<string>, sep: string): string
    decreases |parts|
  {
    if |parts| == 0 then ""
    else if |parts| == 1 then parts[0]
    else parts[0] + sep + JoinWith(parts[1..], sep)
  }

  /** Every part occurs in the joined string. */
  lemma {:induction false} JoinWithIncludes(parts: seq<string>, sep: string, k: nat)
    requires k < |parts|
    ensures Includes(JoinWith(parts, sep), parts[k])
    decreases |parts|
  {
    if |parts| == 1 {
      IncludesMiddle("", parts[0], "");
      assert "" + parts[0] + "" == parts[0];
    } else if k == 0 {
      IncludesMiddle("", parts[0], sep + JoinWith(parts[1..], sep));
      assert "" + parts[0] + (sep + JoinWith(parts[1..], sep)) == JoinWith(parts, sep);
    } else {
      var rest := JoinWith(parts[1..], sep);
      JoinWithIncludes(parts[1..], sep, k - 1);
      var t := JoinWith(parts, sep);
      assert t == (parts[0] + sep) + rest;
      assert t[|parts[0] + sep|..|parts[0] + sep| + |rest|] == rest;
      IncludesWithin(t, rest, parts[k], |parts[0] + sep|);
    }
  }

  /** A string built as `lead + list + mid + title + tail`. */
  lemma {:induction false} FiveParts(lead: string, list: string, mid: string, title: string, tail: string)
    ensures var r := lead + list + mid + title + tail;
      && StartsWith(r, lead)
      && Includes(r, title)
      && OccursAt(r, list, |lead|)
  {
    var r := lead + list + mid + title + tail;
    PrefixOfConcat(lead, list + mid + title + tail);
    assert r == lead + (list + mid + title + tail);
    IncludesMiddle(lead + list + mid, title, tail);
    assert r[|lead|..|lead| + |list|] == list;
  }

  /**
   * `generateMetaDescription`: the first three keywords, comma separated,
   * and the title, inside a fixed sentence.
   */
  function MetaDescription(title: string, keywords: seq<string>): (r: string)
    ensures StartsWith(r, "Learn about ")
    ensures Includes(r, title)
    ensures forall k :: 0 <= k < Min(3, |keywords|) ==> Includes(r, keywords[k])
  {
    var list := JoinWith(SlicePrefix(keywords, 3), ", ");
    var lead := "Learn about ";
    var tail := " - Complete guide with practical examples and expert tips. Start improving your trading today!";
    var r := lead + list + ". " + title + tail;
    FiveParts(lead, list, ". ", title, tail);
    ListedKeywords(r, |lead|, keywords);
    r
  }

  /** A string holding the first three keywords joined by `, ` holds each of them. */
  lemma ListedKeywords(r: string, at: int, keywords: seq<string>)
    requires OccursAt(r, JoinWith(SlicePrefix(keywords, 3), ", "), at)
    ensures forall k :: 0 <= k < Min(3, |keywords|) ==> Includes(r, keywords[k])
  {
    var list := JoinWith(SlicePrefix(keywords, 3), ", ");
    forall k | 0 <= k < Min(3, |keywords|)
      ensures Includes(r, keywords[k])
    {
      JoinWithIncludes(SlicePrefix(keywords, 3), ", ", k);
      IncludesWithin(r, list, keywords[k], at);
    }
  }

  /** Keywords after the third make no difference to the meta description. */
  lemma MetaIgnoresLaterKeywords(title: string, keywords: seq<string>, more: seq<string>)
    requires |keywords| >= 3
    ensures MetaDescription(title, keywords + more) == MetaDescription(title, keywords[..3])
  {
    assert SlicePrefix(keywords + more, 3) == SlicePrefix(keywords[..3], 3);
  }

  // ---------------------------------------------------------------------
  // Template selection
  // ---------------------------------------------------------------------

  /** Some keyword of the template occurs, case-insensitively, in the topic. */
  predicate KeywordInTopic(t: BlogPost, topic: string)
  {
    exists k :: 0 <= k < |t.keywords| && Includes(Lower(topic), Lower(t.keywords[k]))
  }

  /** The test `generateBlogPost` applies to each template. */
  predicate MatchesTopic(t: BlogPost, topic: string)
  {
    Includes(Lower(t.title), Lower(topic)) || KeywordInTopic(t, topic)
  }

  /** `templates.find(...)`: the index of the first template matching the topic. */
  function FirstMatch(ts: seq<BlogPost>, topic: string, from: nat): (r: Option<nat>)
    requires from <= |ts|
    ensures r.Some? ==> from <= r.value < |ts| && MatchesTopic(ts[r.value], topic)
    ensures r.Some? ==> forall j :: from <= j < r.value ==> !MatchesTopic(ts[j], topic)
    ensures r.None? <==> forall j :: from <= j < |ts| ==> !MatchesTopic(ts[j], topic)
    decreases |ts| - from
  {
    if from == |ts| then None
    else if MatchesTopic(ts[from], topic) then Some(from)
    else FirstMatch(ts, topic, from + 1)
  }

  /** The first template of `ts` matching the topic, the first template when none does. */
  function PickTemplate(ts: seq<BlogPost>, topic: string): (r: BlogPost)
    requires |ts| > 0
    ensures r in ts
    ensures MatchesTopic(r, topic) || (r == ts[0] && forall t :: t in ts ==> !MatchesTopic(t, topic))
  {
    match FirstMatch(ts, topic, 0)
    case Some(i) => ts[i]
    case None => ts[0]
  }

  /** A template matching the topic is picked unless an earlier one matches. */
  lemma PickTemplateFirst(ts: seq<BlogPost>, topic: string, i: nat)
    requires i < |ts| && MatchesTopic(ts[i], topic)
    requires forall j :: 0 <= j < i ==> !MatchesTopic(ts[j], topic)
    ensures PickTemplate(ts, topic) == ts[i]
  {
    var r := FirstMatch(ts, topic, 0);
    assert r.Some?;
    assert r.value == i;
  }

  /**
   * `generateBlogPost`: the pick among the blog templates. The keywords
   * passed in are not consulted.
   */
  function GenerateBlogPost(topic: string, keywords: seq<string>): (r: BlogPost)
    ensures r in BlogTemplates
    ensures MatchesTopic(r, topic) || (r == BlogTemplates[0] && forall t :: t in BlogTemplates ==> !MatchesTopic(t, topic))
  {
    PickTemplate(BlogTemplates, topic)
  }

  /**
   * `generateContentCalendar`: the templates `slice(0, postsPerWeek * 4)`
   * selects, in table order (saving them as drafts is not modelled).
   */
  function ContentCalendar(postsPerWeek: int): (r: seq<BlogPost>)
    ensures postsPerWeek >= 0 ==> |r| == Min(|BlogTemplates|, 4 * postsPerWeek)
    ensures postsPerWeek < 0 ==> |r| == Max(0, |BlogTemplates| + 4 * postsPerWeek)
    ensures forall k :: 0 <= k < |r| ==> r[k] == BlogTemplates[k]
  {
    SlicePrefix(BlogTemplates, postsPerWeek * 4)
  }
}
