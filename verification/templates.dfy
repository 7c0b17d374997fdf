/**
 * The content library of the post generator: the social-post templates and
 * the per-platform publishing specifications (character limit, hashtag
 * allowance, best posting times), with the facts about them the scheduler
 * and the generator rely on.
 */
module Templates {
  import opened Common
  import opened Text

  datatype Media = TextOnly | Image | Video

  /**
   * One post template. A template without a call-to-action has an empty
   * `callToAction` (the generator treats an empty one as absent), and one
   * without hashtags an empty `hashtags`.
   */
  datatype Template = Template(
    id: string,
    category: string,
    platforms: seq<string>,
    body: string,
    hashtags: seq<string>,
    callToAction: string,
    mediaType: Option<Media>)

  /** What the scheduler and the generator select a template by. */
  datatype TemplateMeta = TemplateMeta(
    id: string,
    category: string,
    platforms: seq<string>)

  /** What a post made from a template carries: body, hashtags, call-to-action and media type. */
  datatype TemplateCopy = TemplateCopy(body: string, hashtags: seq<string>, callToAction: string, mediaType: Option<Media>)

  /*
   * The library is kept as two parallel tables, selection data and copy,
   * so that facts about ids, categories and platforms are proved from the
   * small selection table alone; `ContentTemplates` zips them in
   * declaration order.
   */
  const TemplateMetas: seq<TemplateMeta> := [
    TemplateMeta("feature_realtime_charts", "feature", ["twitter", "linkedin", "facebook"]),
    TemplateMeta("feature_ai_strategies", "feature", ["twitter", "linkedin"]),
    TemplateMeta("feature_portfolio_mgmt", "feature", ["linkedin", "facebook"]),
    TemplateMeta("feature_backtesting", "feature", ["twitter", "linkedin"]),
    TemplateMeta("usecase_daytrader", "usecase", ["twitter", "reddit"]),
    TemplateMeta("usecase_swing_trader", "usecase", ["linkedin", "facebook"]),
    TemplateMeta("usecase_portfolio_investor", "usecase", ["linkedin", "facebook"]),
    TemplateMeta("education_rsi", "education", ["twitter", "linkedin", "reddit"]),
    TemplateMeta("education_macd", "education", ["twitter", "linkedin"]),
    TemplateMeta("education_diversification", "education", ["linkedin", "facebook"]),
    TemplateMeta("value_free_tier", "pricing", ["twitter", "facebook", "reddit"]),
    TemplateMeta("value_premium", "pricing", ["twitter", "linkedin"]),
    TemplateMeta("value_pro_tier", "pricing", ["linkedin", "facebook"]),
    TemplateMeta("comparison_traditional", "comparison", ["twitter", "linkedin"]),
    TemplateMeta("comparison_manual_vs_ai", "comparison", ["linkedin", "reddit"]),
    TemplateMeta("social_proof_features", "social_proof", ["twitter", "facebook"]),
    TemplateMeta("promo_trial", "promotion", ["twitter", "facebook", "reddit"]),
    TemplateMeta("promo_new_platform", "promotion", ["twitter", "linkedin", "facebook"]),
    TemplateMeta("problem_missed_signals", "problem_solution", ["twitter", "reddit"]),
    TemplateMeta("problem_expensive_tools", "problem_solution", ["linkedin", "facebook"]),
    TemplateMeta("technical_performance", "technical", ["twitter", "reddit"]),
    TemplateMeta("technical_stack", "technical", ["twitter", "linkedin"]),
    TemplateMeta("engagement_strategy_poll", "engagement", ["twitter", "linkedin"]),
    TemplateMeta("engagement_biggest_challenge", "engagement", ["reddit", "twitter"]),
    TemplateMeta("casual_weekend", "casual", ["twitter", "facebook"]),
    TemplateMeta("casual_motivation", "casual", ["twitter", "facebook", "instagram"]),
    TemplateMeta("deepdive_watchlists", "feature_deepdive", ["linkedin", "reddit"]),
    TemplateMeta("deepdive_alerts", "feature_deepdive", ["twitter", "facebook"]),
    TemplateMeta("industry_volatility", "industry", ["twitter", "linkedin"]),
    TemplateMeta("industry_retail_traders", "industry", ["linkedin", "reddit"])
  ]

  const TemplateCopies: seq<TemplateCopy> := [
    TemplateCopy(
      "📊 Real-time market data at your fingertips! TradeFlows Pro delivers professional-grade charts with multiple timeframes (1m to 1d). Make informed decisions with live data powered by Alpaca Markets.",
      ["TradingPlatform", "StockMarket", "MarketData", "TradingTools"],
      "Start your 14-day free trial: https://tradeflows.net",
      None),
    TemplateCopy(
      "🤖 AI-Powered Trading Strategies: RSI Mean Reversion, MACD Trend Following, Bollinger Band Breakouts & Momentum Flash Signals. Let TradeFlows Pro's algorithms work for you!",
      ["AITrading", "AlgoTrading", "TradingStrategy", "AutomatedTrading"],
      "Try AI strategies free for 14 days: https://tradeflows.net",
      None),
    TemplateCopy(
      "💼 Complete Portfolio Management Suite: Track multiple portfolios, monitor real-time P&L, visualize asset allocation, and maintain detailed transaction history. Professional portfolio tools at your command.",
      ["PortfolioManagement", "InvestmentTools", "WealthManagement"],
      "Elevate your portfolio management: https://tradeflows.net",
      None),
    TemplateCopy(
      "⚡ Backtest before you invest! TradeFlows Pro's backtesting engine lets you validate strategies with historical data & performance metrics. Trade with confidence, backed by data.",
      ["Backtesting", "TradingStrategy", "DataDrivenTrading", "SmartInvesting"],
      "Test drive our backtesting engine: https://tradeflows.net",
      None),
    TemplateCopy(
      "Day traders: Imagine having 4 AI strategies running in parallel, scanning markets 24/7. TradeFlows Pro turns your trading desk into a command center with real-time signals and instant alerts.",
      ["DayTrading", "ActiveTrading", "TradingSignals"],
      "14-day free trial, no credit card: https://tradeflows.net",
      None),
    TemplateCopy(
      "Swing traders, this is your edge: Set up price alerts, analyze multiple timeframes, and let AI strategies identify opportunities while you focus on the big picture. Professional tools, simplified.",
      ["SwingTrading", "TradingStrategy", "Investing"],
      "Discover your trading edge: https://tradeflows.net",
      None),
    TemplateCopy(
      "Long-term investors: Track all your positions in one place, monitor performance with visual analytics, and get alerts when your holdings hit key levels. TradeFlows Pro is your investment control center.",
      ["Investing", "PortfolioTracking", "WealthBuilding", "SmartInvesting"],
      "Start managing smarter: https://tradeflows.net",
      None),
    TemplateCopy(
      "📚 Trading Tip: RSI (Relative Strength Index) helps identify overbought/oversold conditions. TradeFlows Pro's RSI Mean Reversion strategy automatically spots these opportunities. Learn more about how momentum indicators can improve your trading!",
      ["TradingEducation", "RSI", "TechnicalAnalysis", "LearnToTrade"],
      "Experience AI-powered RSI analysis: https://tradeflows.net",
      None),
    TemplateCopy(
      "📈 MACD Explained: Moving Average Convergence Divergence is a trend-following indicator that shows momentum strength. Our MACD strategy identifies trend changes automatically, so you never miss a move!",
      ["MACD", "TradingEducation", "TechnicalAnalysis", "TradingStrategy"],
      "See MACD in action with our free trial: https://tradeflows.net",
      None),
    TemplateCopy(
      "💡 Portfolio Wisdom: Diversification isn't just about different stocks—it's about strategies too! TradeFlows Pro lets you run multiple AI strategies simultaneously, spreading your approach across momentum, trend-following, and mean reversion.",
      ["InvestmentStrategy", "Diversification", "SmartInvesting"],
      "Build a diversified strategy portfolio: https://tradeflows.net",
      None),
    TemplateCopy(
      "🎁 FREE Forever: Get started with TradeFlows Pro's free tier! Professional charts, 3 watchlists, and real-time data. Zero cost, zero commitment. Upgrade only when you're ready for AI strategies.",
      ["FreeTradingTools", "StockMarket", "FreeTrading"],
      "Sign up free today: https://tradeflows.net",
      None),
    TemplateCopy(
      "⚡ Premium Plan: $29/month unlocks 4 AI trading strategies, unlimited watchlists, and advanced analytics. That's less than $1/day for professional-grade trading intelligence. Try it free for 14 days!",
      ["TradingPlan", "InvestmentTools", "TradingSoftware"],
      "Start your 14-day free trial: https://tradeflows.net",
      None),
    TemplateCopy(
      "🚀 Pro Tier ($99/mo): Custom strategies, advanced analytics, priority support, and unlimited API requests. Built for serious traders who demand enterprise-grade tools. 14-day free trial included.",
      ["ProfessionalTrading", "TradingTools", "EnterpriseGrade"],
      "Unlock Pro features: https://tradeflows.net",
      None),
    TemplateCopy(
      "Traditional platforms charge $100+/month for basic features. TradeFlows Pro delivers AI strategies, real-time data, and portfolio management starting at FREE. Professional tools shouldn't break the bank.",
      ["TradingValue", "AffordableTrading", "SmartChoice"],
      "Compare for yourself: https://tradeflows.net",
      None),
    TemplateCopy(
      "Manual analysis vs. AI-powered: While you're analyzing one chart, TradeFlows Pro's AI scans hundreds of signals across multiple strategies. It's not about replacing your judgment—it's about enhancing it with data-driven insights.",
      ["AITrading", "SmartTrading", "TradingEdge"],
      "See the AI advantage: https://tradeflows.net",
      None),
    TemplateCopy(
      "What traders love about TradeFlows Pro: ✅ Real-time data that's actually real-time ✅ AI strategies that actually work ✅ Pricing that's actually fair. Join traders who are leveling up their game.",
      ["TradingCommunity", "TraderLife", "StockTrading"],
      "Join the community: https://tradeflows.net",
      None),
    TemplateCopy(
      "⏰ 14-Day Free Trial: Full access to Premium features. No credit card required. Cancel anytime. Test AI strategies, unlimited watchlists, and advanced analytics risk-free. What do you have to lose?",
      ["FreeTrial", "TradingTools", "TryBeforeYouBuy"],
      "Start your free trial: https://tradeflows.net",
      None),
    TemplateCopy(
      "🎉 TradeFlows Pro is now live! We've built the trading platform we wished existed: AI-powered strategies, real-time data, portfolio management, all starting FREE. Built by traders, for traders.",
      ["NewPlatform", "TradingLaunch", "TradingTools"],
      "Explore the platform: https://tradeflows.net",
      None),
    TemplateCopy(
      "Tired of missing trades because you weren't watching? TradeFlows Pro's AI strategies monitor markets 24/7 and send instant alerts when opportunities appear. Never miss a signal again.",
      ["TradingAlerts", "SmartTrading", "TradingSignals"],
      "Set up your AI watchdog: https://tradeflows.net",
      None),
    TemplateCopy(
      "Professional trading tools shouldn't cost $500/month. TradeFlows Pro brings enterprise-grade features to individual traders at a fraction of traditional platform costs. Premium tier: just $29/month.",
      ["AffordableTrading", "TradingValue", "SmartInvesting"],
      "See our transparent pricing: https://tradeflows.net",
      None),
    TemplateCopy(
      "⚡ Built for speed: React 19, TypeScript, Web Workers for calculations, and LightWeight Charts for blazing-fast visualization. TradeFlows Pro is engineered for performance. Sub-100ms chart updates, even with complex indicators.",
      ["TradingTech", "PerformanceMatters", "ModernTrading"],
      "Experience the speed: https://tradeflows.net",
      None),
    TemplateCopy(
      "🛠️ Tech stack: Built with React 19, TypeScript, Vite, and professional-grade charting. Open architecture, real-time WebSocket connections, and Web Workers for non-blocking calculations. Modern tech for modern trading.",
      ["TradingPlatform", "TechStack", "ModernArchitecture"],
      "Built by devs who trade: https://tradeflows.net",
      None),
    TemplateCopy(
      "Question for traders: What's your primary trading strategy? A) Momentum/Trend Following B) Mean Reversion C) Breakouts D) Mix of multiple strategies\n\nTradeFlows Pro supports all of these with AI-powered execution!",
      ["TradingStrategy", "TradingPoll", "TraderCommunity"],
      "Try all strategies with our free trial: https://tradeflows.net",
      None),
    TemplateCopy(
      "What's your biggest challenge in trading? For us, it was finding tools that were powerful yet affordable. That's why we built TradeFlows Pro. What pain points are you dealing with?",
      ["TradingCommunity", "TradingLife", "TraderProblems"],
      "See if we solved your problem: https://tradeflows.net",
      None),
    TemplateCopy(
      "📊 Weekend prep: Use TradeFlows Pro to review your watchlists, check strategy performance, and set up alerts for Monday. Smart traders plan ahead. The markets wait for no one.",
      ["WeekendTrading", "TradingPrep", "MarketReady"],
      "Get market-ready: https://tradeflows.net",
      None),
    TemplateCopy(
      "💪 Every expert trader was once a beginner. The difference? They had the right tools and kept learning. TradeFlows Pro gives you the professional-grade tools. You bring the dedication.",
      ["TradingMotivation", "InvestingJourney", "TraderMindset"],
      "Start your journey: https://tradeflows.net",
      None),
    TemplateCopy(
      "Watchlist Management Done Right: Organize by sector, strategy, or risk level. Set price alerts, track daily changes, and analyze patterns. Premium users get unlimited watchlists. Keep every opportunity on your radar.",
      ["Watchlist", "StockTracking", "MarketWatch"],
      "Build your ultimate watchlist: https://tradeflows.net",
      None),
    TemplateCopy(
      "🔔 Smart Alerts: Price crosses a threshold? Get notified. Strategy generates a signal? Get notified. Portfolio hits a P&L target? Get notified. TradeFlows Pro keeps you informed without overwhelming you.",
      ["TradingAlerts", "PriceAlerts", "SmartNotifications"],
      "Never miss a move: https://tradeflows.net",
      None),
    TemplateCopy(
      "Market volatility = opportunity for prepared traders. TradeFlows Pro's AI strategies excel in volatile conditions, identifying signals that manual analysis might miss. Are you prepared for the next big move?",
      ["MarketVolatility", "TradingOpportunity", "SmartTrading"],
      "Prepare with professional tools: https://tradeflows.net",
      None),
    TemplateCopy(
      "The democratization of trading tools is here. What used to require $10K+ institutional software is now accessible to retail traders. TradeFlows Pro is part of this revolution: professional tools, retail pricing.",
      ["RetailTrading", "TradingRevolution", "FinTech"],
      "Join the trading revolution: https://tradeflows.net",
      None)
  ]

  /** The template library, in declaration order. */
  const ContentTemplates: seq<Template> :=
    assert |TemplateMetas| == |TemplateCopies|;
    seq(|TemplateMetas|, i requires 0 <= i < |TemplateMetas| =>
      var m := TemplateMetas[i];
      var c := TemplateCopies[i];
      Template(m.id, m.category, m.platforms, c.body, c.hashtags, c.callToAction, c.mediaType))

  /** Publishing rules of one platform. */
  datatype PlatformSpec = PlatformSpec(
    maxLength: int,
    optimalHashtags: int,
    bestPostTimes: seq<string>,
    requiresImage: bool)

  /** The clock string of a whole hour, `"9:00"` for 9. */
  function WholeHour(h: nat): string
  {
    NatToString(h) + ":00"
  }

  /** The clock strings of a list of whole hours. */
  function Clocks(hours: seq<nat>): (r: seq<string>)
    ensures |r| == |hours|
    ensures forall k :: 0 <= k < |hours| ==> r[k] == WholeHour(hours[k])
  {
    seq(|hours|, k requires 0 <= k < |hours| => WholeHour(hours[k]))
  }

  /*
   * The hashtag allowances are written in the library as ranges such as
   * `2-4`, which the language evaluates as subtractions; they are kept here
   * as the same subtractions.
   */
  const TwitterSpec := PlatformSpec(280, 2 - 4, Clocks([9, 12, 17, 20]), false)
  const LinkedInSpec := PlatformSpec(3000, 3 - 5, Clocks([7, 12, 17]), false)
  const FacebookSpec := PlatformSpec(63206, 2 - 3, Clocks([13, 15, 19]), false)
  const InstagramSpec := PlatformSpec(2200, 8 - 11, Clocks([11, 14, 19]), true)
  const RedditSpec := PlatformSpec(40000, 0, Clocks([6, 8, 16, 21]), false)

  /** `platformSpecs[platform]`; absent for a platform the table does not list. */
  function SpecFor(platform: string): (r: Option<PlatformSpec>)
    ensures r.Some? <==> platform in SpecPlatforms
    ensures r.Some? ==> (r.value.requiresImage <==> platform == "instagram")
    ensures r.Some? ==> r.value.optimalHashtags <= 0 && r.value.maxLength >= 280
  {
    if platform == "twitter" then Some(TwitterSpec)
    else if platform == "linkedin" then Some(LinkedInSpec)
    else if platform == "facebook" then Some(FacebookSpec)
    else if platform == "instagram" then Some(InstagramSpec)
    else if platform == "reddit" then Some(RedditSpec)
    else None
  }

  /** The five platforms that have a specification. */
  const SpecPlatforms: seq<string> := ["twitter", "linkedin", "facebook", "instagram", "reddit"]

  /**
   * The character limits, and the hashtag allowances as the subtractions
   * evaluate: negative for every platform but reddit.
   */
  lemma SpecNumbers()
    ensures SpecFor("twitter").Some? && SpecFor("twitter").value.maxLength == 280
      && SpecFor("twitter").value.optimalHashtags == -2
    ensures SpecFor("linkedin").Some? && SpecFor("linkedin").value.maxLength == 3000
      && SpecFor("linkedin").value.optimalHashtags == -2
    ensures SpecFor("facebook").Some? && SpecFor("facebook").value.maxLength == 63206
      && SpecFor("facebook").value.optimalHashtags == -1
    ensures SpecFor("instagram").Some? && SpecFor("instagram").value.maxLength == 2200
      && SpecFor("instagram").value.optimalHashtags == -3
    ensures SpecFor("reddit").Some? && SpecFor("reddit").value.maxLength == 40000
      && SpecFor("reddit").value.optimalHashtags == 0
  {
  }

  /** `"H:MM".split(':').map(Number)`: hours and minutes of a clock string. */
  function ParseClock(t: string): Option<(nat, nat)>
  {
    var parts := Split(t, ':');
    if |parts| != 2 then None
    else match (ParseNat(parts[0]), ParseNat(parts[1]))
      case (Some(h), Some(m)) => Some((h, m))
      case _ => None
  }

  /** A best-time entry a post can be placed on: whole hour between 6 and 21. */
  predicate DaytimeSlot(t: string)
  {
    var c := ParseClock(t);
    c.Some? && 6 <= c.value.0 <= 21 && c.value.1 == 0
  }


  /** Reading `"<h>:00"` gives hour `h` and minute 0. */
  lemma {:induction false} ParseWholeHour(h: string)
    requires |h| >= 1 && AllDigits(h)
    ensures ParseClock(h + ":00") == Some((DigitsValue(h), 0))
  {
    assert ':' !in h by {
      forall k | 0 <= k < |h| ensures h[k] != ':' { assert IsDigit(h[k]); }
    }
    assert Join([h, "00"], ':') == h + ":00";
    SplitJoin([h, "00"], ':');
    assert "00"[..1] == "0" && "0"[..0] == [];
    assert DigitsValue("00") == 0;
  }

  /** Hour `h` and minute 0 always read back from `WholeHour(h)`. */
  lemma WholeHourParses(h: nat)
    ensures ParseClock(WholeHour(h)) == Some((h, 0))
  {
    ParseNatToString(h);
    ParseWholeHour(NatToString(h));
  }

  lemma ClocksDaytime(hours: seq<nat>)
    requires forall k :: 0 <= k < |hours| ==> 6 <= hours[k] <= 21
    ensures forall k :: 0 <= k < |hours| ==> DaytimeSlot(Clocks(hours)[k])
  {
    forall k | 0 <= k < |hours|
      ensures DaytimeSlot(Clocks(hours)[k])
    {
      WholeHourParses(hours[k]);
    }
  }

  /** Every best posting time is a whole hour between 06:00 and 21:00. */
  lemma BestTimesDaytime(p: string)
    requires SpecFor(p).Some?
    ensures |SpecFor(p).value.bestPostTimes| >= 1
    ensures forall k :: 0 <= k < |SpecFor(p).value.bestPostTimes| ==>
      DaytimeSlot(SpecFor(p).value.bestPostTimes[k])
  {
    if p == "twitter" {
      ClocksDaytime([9, 12, 17, 20]);
    } else if p == "linkedin" {
      ClocksDaytime([7, 12, 17]);
    } else if p == "facebook" {
      ClocksDaytime([13, 15, 19]);
    } else if p == "instagram" {
      ClocksDaytime([11, 14, 19]);
    } else {
      ClocksDaytime([6, 8, 16, 21]);
    }
  }

  /** The library entries carry exactly the metadata table's ids, categories and platforms. */
  lemma LibraryMatchesMetadata()
    ensures |ContentTemplates| == |TemplateMetas| == 30
    ensures forall i :: 0 <= i < |TemplateMetas| ==>
      && ContentTemplates[i].id == TemplateMetas[i].id
      && ContentTemplates[i].category == TemplateMetas[i].category
      && ContentTemplates[i].platforms == TemplateMetas[i].platforms
  {
  }

  /*
   * Comparing thirty ids pairwise is costly for the solver, so distinctness
   * goes through a cheap key: an id's length and first letter already tell
   * the library's ids apart, and each key sits at exactly one position.
   */
  function IdKey(id: string): int
  {
    if |id| == 0 then 0 else |id| * 256 + id[0] as int
  }

  /** The keys of the library's ids, in table order. */
  const IdKeys: seq<int> := [
    5990, 5478, 5734, 4966, 4469, 5237, 6773, 3429, 3685, 6501,
    3958, 3446, 3702, 5731, 5987, 5491, 2928, 4720, 5744, 6000,
    5492, 3956, 6245, 7269, 3683, 4451, 4964, 3940, 4969, 5993]

  /** The table position of the id with key `k`, or -1 for no id of the library. */
  function KeyPosition(k: int): int
  {
    if k == 5990 then 0
    else if k == 5478 then 1
    else if k == 5734 then 2
    else if k == 4966 then 3
    else if k == 4469 then 4
    else if k == 5237 then 5
    else if k == 6773 then 6
    else if k == 3429 then 7
    else if k == 3685 then 8
    else if k == 6501 then 9
    else if k == 3958 then 10
    else if k == 3446 then 11
    else if k == 3702 then 12
    else if k == 5731 then 13
    else if k == 5987 then 14
    else if k == 5491 then 15
    else if k == 2928 then 16
    else if k == 4720 then 17
    else if k == 5744 then 18
    else if k == 6000 then 19
    else if k == 5492 then 20
    else if k == 3956 then 21
    else if k == 6245 then 22
    else if k == 7269 then 23
    else if k == 3683 then 24
    else if k == 4451 then 25
    else if k == 4964 then 26
    else if k == 3940 then 27
    else if k == 4969 then 28
    else if k == 5993 then 29
    else -1
  }

  /* The per-range facts below are split in thirds of the table to keep each proof small. */

  lemma MetaKeys0()
    ensures forall i :: 0 <= i < 10 ==> IdKey(TemplateMetas[i].id) == IdKeys[i]
  {
  }

  lemma MetaKeys1()
    ensures forall i :: 10 <= i < 20 ==> IdKey(TemplateMetas[i].id) == IdKeys[i]
  {
  }

  lemma MetaKeys2()
    ensures forall i :: 20 <= i < 30 ==> IdKey(TemplateMetas[i].id) == IdKeys[i]
  {
  }

  lemma KeysPositioned()
    ensures |IdKeys| == |TemplateMetas|
    ensures forall i :: 0 <= i < |IdKeys| ==> KeyPosition(IdKeys[i]) == i
  {
  }

  lemma MetaIdsDistinct()
    ensures forall i, j :: 0 <= i < j < |TemplateMetas| ==> TemplateMetas[i].id != TemplateMetas[j].id
  {
    MetaKeys0();
    MetaKeys1();
    MetaKeys2();
    KeysPositioned();
  }

  lemma MetaPlatformsNonEmpty()
    ensures forall i :: 0 <= i < |TemplateMetas| ==>
      |TemplateMetas[i].platforms| >= 1 && TemplateMetas[i].id != ""
  {
  }

  lemma MetaInstagram0()
    ensures forall i :: 0 <= i < 10 ==>
      "instagram" !in TemplateMetas[i].platforms && TemplateMetas[i].id != "casual_motivation"
  {
  }

  lemma MetaInstagram1()
    ensures forall i :: 10 <= i < 20 ==>
      "instagram" !in TemplateMetas[i].platforms && TemplateMetas[i].id != "casual_motivation"
  {
  }

  lemma MetaInstagram2()
    ensures forall i :: 20 <= i < 30 ==>
      ("instagram" in TemplateMetas[i].platforms <==> i == 25) && (TemplateMetas[i].id == "casual_motivation" <==> i == 25)
    ensures TemplateMetas[25].category == "casual"
  {
  }

  lemma MetaInstagram()
    ensures forall i :: 0 <= i < |TemplateMetas| ==>
      ("instagram" in TemplateMetas[i].platforms <==> TemplateMetas[i].id == "casual_motivation")
    ensures forall i :: 0 <= i < |TemplateMetas| && TemplateMetas[i].id == "casual_motivation" ==>
      TemplateMetas[i].category == "casual"
  {
    MetaInstagram0();
    MetaInstagram1();
    MetaInstagram2();
  }

  /** The categories the library uses. */
  const Categories: set<string> := {
    "feature", "usecase", "education", "pricing", "comparison", "social_proof", "promotion",
    "problem_solution", "technical", "engagement", "casual", "feature_deepdive", "industry"}

  lemma MetaCategoryNames0()
    ensures forall i :: 0 <= i < 10 ==> TemplateMetas[i].category in Categories
  {
  }

  lemma MetaCategoryNames1()
    ensures forall i :: 10 <= i < 20 ==> TemplateMetas[i].category in Categories
  {
  }

  lemma MetaCategoryNames2()
    ensures forall i :: 20 <= i < 30 ==> TemplateMetas[i].category in Categories
  {
  }

  lemma MetaIdsNotCategories0()
    ensures forall i :: 0 <= i < 10 ==> TemplateMetas[i].id !in Categories
  {
  }

  lemma MetaIdsNotCategories1()
    ensures forall i :: 10 <= i < 20 ==> TemplateMetas[i].id !in Categories
  {
  }

  lemma MetaIdsNotCategories2()
    ensures forall i :: 20 <= i < 30 ==> TemplateMetas[i].id !in Categories
  {
  }

  lemma MetaCategories()
    ensures forall i :: 0 <= i < |TemplateMetas| ==> TemplateMetas[i].category in Categories
    ensures forall i :: 0 <= i < |TemplateMetas| ==> TemplateMetas[i].id !in Categories
  {
    MetaCategoryNames0();
    MetaCategoryNames1();
    MetaCategoryNames2();
    MetaIdsNotCategories0();
    MetaIdsNotCategories1();
    MetaIdsNotCategories2();
  }

  /** Template ids are pairwise distinct. */
  lemma TemplateIdsDistinct()
    ensures forall i, j :: 0 <= i < j < |ContentTemplates| ==>
      ContentTemplates[i].id != ContentTemplates[j].id
  {
    LibraryMatchesMetadata();
    MetaIdsDistinct();
  }

  /** Every template lists at least one platform and has a non-empty id. */
  lemma EveryTemplateListsAPlatform()
    ensures forall i :: 0 <= i < |ContentTemplates| ==>
      |ContentTemplates[i].platforms| >= 1 && ContentTemplates[i].id != ""
  {
    LibraryMatchesMetadata();
    MetaPlatformsNonEmpty();
  }

  /**
   * Only `casual_motivation` lists instagram, so every instagram post is of
   * category `casual`.
   */
  lemma InstagramOnlyCasual()
    ensures forall i :: 0 <= i < |ContentTemplates| ==>
      ("instagram" in ContentTemplates[i].platforms <==> ContentTemplates[i].id == "casual_motivation")
    ensures forall i :: 0 <= i < |ContentTemplates| && "instagram" in ContentTemplates[i].platforms ==>
      ContentTemplates[i].category == "casual"
  {
    LibraryMatchesMetadata();
    MetaInstagram();
  }

  /** A template id never equals a template category. */
  lemma IdsAreNotCategories()
    ensures forall i, j :: 0 <= i < |ContentTemplates| && 0 <= j < |ContentTemplates| ==>
      ContentTemplates[i].id != ContentTemplates[j].category
  {
    LibraryMatchesMetadata();
    MetaCategories();
  }

  /** Every platform with a specification has at least one template. */
  lemma EverySpecPlatformHasTemplate(p: string)
    requires p in SpecPlatforms
    ensures exists i :: 0 <= i < |ContentTemplates| && p in ContentTemplates[i].platforms
  {
    LibraryMatchesMetadata();
    MetaCoverSpecPlatforms();
    if p == "reddit" {
      assert p in ContentTemplates[4].platforms;
    } else if p == "instagram" {
      assert p in ContentTemplates[25].platforms;
    } else {
      assert p in ContentTemplates[0].platforms;
    }
  }

  lemma MetaCoverSpecPlatforms()
    ensures "twitter" in TemplateMetas[0].platforms && "linkedin" in TemplateMetas[0].platforms
    ensures "facebook" in TemplateMetas[0].platforms && "reddit" in TemplateMetas[4].platforms
    ensures "instagram" in TemplateMetas[25].platforms
  {
  }
}
