/**
 * The post generator: choosing a template for a platform while avoiding the
 * recently used ones, formatting the post for the platform (call-to-action,
 * hashtags, length limit), campaigns, posting times, the daily category mix
 * and the library statistics.
 *
 * `Math.random()` draws are parameters of type `Unit` (a real in [0, 1)); a
 * shuffle is driven by a sequence of whole-number draws.
 */
module Generator {
  import opened Common
  import opened Text
  import opened Templates

  /** A `Math.random()` draw. */
  type Unit = r: real | 0.0 <= r < 1.0

  /** `Math.floor(u * n)`: an index into a collection of `n` elements. */
  function PickIndex(u: Unit, n: nat): (k: nat)
    requires n > 0
    ensures k < n
  {
    var x := u * n as real;
    assert 0.0 <= x < n as real;
    x.Floor
  }

  /** How many templates are remembered as recently used. */
  const RecentWindow: nat := 10

  /**
   * `new Set(items)`: the items without repetitions, in order of first
   * appearance.
   */
  function Dedup(items: seq<string>): (r: seq<string>)
    ensures Distinct(r)
    ensures forall x :: x in r <==> x in items
    ensures |r| <= |items|
  {
    if |items| == 0 then []
    else
      var rest := Dedup(items[..|items| - 1]);
      var x := items[|items| - 1];
      if x in rest then rest else rest + [x]
  }

  /**
   * Marking template `id` as used: it is added at the end unless already
   * present; when the set then exceeds the window its oldest entry is
   * dropped, unless that entry is the empty (falsy) string.
   */
  function Remember(recent: seq<string>, id: string): (r: seq<string>)
    requires Distinct(recent)
    ensures Distinct(r)
    ensures |recent| <= RecentWindow || id !in recent || id != recent[0] ==> id in r
    ensures forall x :: x in r ==> x in recent || x == id
    ensures forall x :: x in recent && x != id && (|recent| < RecentWindow || x != recent[0]) ==> x in r
  {
    var added := if id in recent then recent else recent + [id];
    assert Distinct(added);
    assert |recent| > 0 ==> added[0] == recent[0];
    assert forall x :: x in added <==> x in recent || x == id;
    if |added| > RecentWindow && added[0] != "" then
      assert forall x :: x in added && x != added[0] ==> x in added[1..];
      added[1..]
    else added
  }

  /** The set never grows past the window unless it holds an empty id. */
  lemma {:induction false} RememberBounded(recent: seq<string>, id: string)
    requires Distinct(recent)
    requires |recent| <= RecentWindow && "" !in recent
    requires id != ""
    ensures |Remember(recent, id)| <= RecentWindow
    ensures "" !in Remember(recent, id)
  {
  }

  /** The templates of `lib` that satisfy `keep`, in library order. */
  function Select(lib: seq<Template>, keep: Template -> bool): (r: seq<Template>)
    ensures |r| <= |lib|
    ensures forall t :: t in r <==> t in lib && keep(t)
  {
    if |lib| == 0 then []
    else
      var rest := Select(lib[..|lib| - 1], keep);
      if keep(lib[|lib| - 1]) then rest + [lib[|lib| - 1]] else rest
  }

  /**
   * The templates a post for `platform` is drawn from. `preferred` is the
   * requested category, the empty string when none is requested; it is
   * honoured only when some template of the platform has it. Recently used
   * templates are avoided unless nothing else is left.
   */
  function Pool(lib: seq<Template>, platform: string, preferred: string, recent: seq<string>): (r: seq<Template>)
    ensures forall t :: t in r ==> t in lib && platform in t.platforms
    ensures |r| == 0 <==> forall t :: t in lib ==> platform !in t.platforms
    ensures preferred != "" && (exists t :: t in lib && platform in t.platforms && t.category == preferred) ==>
      forall t :: t in r ==> t.category == preferred
    ensures (exists t :: t in lib && platform in t.platforms && t.id !in recent &&
              (preferred == "" || t.category == preferred ||
               forall u :: u in lib && platform in u.platforms ==> u.category != preferred)) ==>
      forall t :: t in r ==> t.id !in recent
  {
    var onPlatform := Select(lib, (t: Template) => platform in t.platforms);
    var inCategory := Select(onPlatform, (t: Template) => t.category == preferred);
    var available := if preferred != "" && |inCategory| > 0 then inCategory else onPlatform;
    var unused := Select(available, (t: Template) => t.id !in recent);
    if |unused| > 0 then unused else available
  }

  /**
   * A random permutation: each draw picks, modulo the number of elements
   * left, the next element to put in front.
   */
  function Shuffle(xs: seq<string>, draws: seq<nat>): (r: seq<string>)
    ensures |r| == |xs|
    ensures multiset(r) == multiset(xs)
    decreases |xs|
  {
    if |xs| == 0 then []
    else
      var k := (if |draws| > 0 then draws[0] else 0) % |xs|;
      var rest := xs[..k] + xs[k + 1..];
      assert xs == xs[..k] + [xs[k]] + xs[k + 1..];
      [xs[k]] + Shuffle(rest, if |draws| > 0 then draws[1..] else [])
  }

  /**
   * Choosing `maxCount` hashtags: all of them when they fit, otherwise
   * `slice(0, maxCount)` of a shuffled copy (a negative count drops that
   * many from the end).
   */
  function SelectHashtags(tags: seq<string>, maxCount: int, draws: seq<nat>): (r: seq<string>)
    ensures |tags| <= maxCount ==> r == tags
    ensures |tags| > maxCount ==> |r| == SliceEnd(|tags|, maxCount)
    ensures multiset(r) <= multiset(tags)
  {
    if |tags| <= maxCount then tags
    else
      var shuffled := Shuffle(tags, draws);
      var r := SlicePrefix(shuffled, maxCount);
      assert shuffled == r + shuffled[|r|..];
      assert multiset(shuffled) == multiset(r) + multiset(shuffled[|r|..]);
      r
  }

  /** A formatted post. `hashtags` is the template's full list. */
  datatype GeneratedPost = GeneratedPost(
    content: string,
    platform: string,
    category: string,
    hashtags: seq<string>,
    hasMedia: bool)

  /** `tags.map(t => '#' + t).join(' ')`. */
  function HashtagLine(tags: seq<string>): string
  {
    Join(seq(|tags|, i requires 0 <= i < |tags| => "#" + tags[i]), ' ')
  }

  /** The hashtag allowance: the platform's `optimalHashtags`, or 3 when that is absent or 0. */
  function HashtagAllowance(platform: string): int
  {
    var spec := SpecFor(platform);
    if spec.Some? && spec.value.optimalHashtags != 0 then spec.value.optimalHashtags else 3
  }

  /** The post text before the length limit is applied. */
  function Draft(t: Template, platform: string, draws: seq<nat>): string
  {
    var withCta := if t.callToAction != "" then t.body + "\n\n" + t.callToAction else t.body;
    if platform != "reddit" && |t.hashtags| > 0 then
      var selected := SelectHashtags(t.hashtags, HashtagAllowance(platform), draws);
      if |selected| > 0 then withCta + "\n\n" + HashtagLine(selected) else withCta
    else withCta
  }

  /**
   * Formatting template `t` for `platform`. A draft longer than the
   * platform's limit is cut to `limit - 3` characters followed by `...`.
   */
  function BuildPost(t: Template, platform: string, draws: seq<nat>): (p: GeneratedPost)
    ensures p.platform == platform && p.category == t.category && p.hashtags == t.hashtags
    ensures p.hasMedia <==> t.mediaType == Some(Image) || t.mediaType == Some(Video) || platform == "instagram"
    ensures SpecFor(platform).Some? ==> |p.content| <= SpecFor(platform).value.maxLength
    ensures SpecFor(platform).None? || |Draft(t, platform, draws)| <= SpecFor(platform).value.maxLength
      ==> p.content == Draft(t, platform, draws)
    ensures SpecFor(platform).Some? && |Draft(t, platform, draws)| > SpecFor(platform).value.maxLength ==>
      var limit := SpecFor(platform).value.maxLength;
      |p.content| == limit && p.content == Draft(t, platform, draws)[..limit - 3] + "..."
  {
    var draft := Draft(t, platform, draws);
    var spec := SpecFor(platform);
    var content :=
      if spec.Some? && |draft| > spec.value.maxLength then draft[..spec.value.maxLength - 3] + "..."
      else draft;
    GeneratedPost(content, platform, t.category, t.hashtags,
      t.mediaType == Some(Image) || t.mediaType == Some(Video) || platform == "instagram")
  }

  /** The draft opens with the template body, and ends with the call-to-action when there are no hashtags to add. */
  lemma DraftStartsWithBody(t: Template, platform: string, draws: seq<nat>)
    ensures |t.body| <= |Draft(t, platform, draws)|
    ensures Draft(t, platform, draws)[..|t.body|] == t.body
    ensures (platform == "reddit" || |t.hashtags| == 0) && t.callToAction != "" ==>
      Draft(t, platform, draws) == t.body + "\n\n" + t.callToAction
  {
    var withCta := if t.callToAction != "" then t.body + "\n\n" + t.callToAction else t.body;
    if t.callToAction != "" {
      PrefixOfConcat(t.body, "\n\n");
      PrefixOfConcat(t.body + "\n\n", t.callToAction);
      PrefixTrans(withCta, t.body + "\n\n", t.body);
    } else {
      PrefixOfConcat(t.body, "");
    }
    var d := Draft(t, platform, draws);
    if platform != "reddit" && |t.hashtags| > 0 {
      var selected := SelectHashtags(t.hashtags, HashtagAllowance(platform), draws);
      if |selected| > 0 {
        assert d == withCta + "\n\n" + HashtagLine(selected);
        PrefixOfConcat(withCta, "\n\n");
        PrefixOfConcat(withCta + "\n\n", HashtagLine(selected));
        PrefixTrans(d, withCta + "\n\n", withCta);
        PrefixTrans(d, withCta, t.body);
      }
    }
  }

  /**
   * How many hashtags a platform with a specification actually gets: the
   * allowances are negative numbers, so `slice(0, allowance)` DROPS that many
   * hashtags instead of keeping them; a platform without a specification
   * keeps at most three.
   */
  lemma HashtagCount(tags: seq<string>, platform: string, draws: seq<nat>)
    requires |tags| > 0
    ensures SpecFor(platform).Some? && platform != "reddit" ==>
      |SelectHashtags(tags, HashtagAllowance(platform), draws)|
        == Max(0, |tags| + SpecFor(platform).value.optimalHashtags)
    ensures SpecFor(platform).None? ==>
      |SelectHashtags(tags, HashtagAllowance(platform), draws)| == Min(|tags|, 3)
  {
  }

  /** The twitter posts of a four-hashtag template carry two of them. */
  lemma TwitterKeepsTwoOfFour(tags: seq<string>, draws: seq<nat>)
    requires |tags| == 4
    ensures |SelectHashtags(tags, HashtagAllowance("twitter"), draws)| == 2
  {
    HashtagCount(tags, "twitter", draws);
  }

  /** The outcome of one generation: the post, if any, and the updated recently-used set. */
  datatype Generation = Generation(post: Option<GeneratedPost>, recent: seq<string>, template: Option<Template>)

  /** The random choices of one generation. */
  datatype PostDraws = PostDraws(category: Unit, template: Unit, shuffle: seq<nat>)

  /**
   * Generating one post for `platform`: no post when no template lists the
   * platform, otherwise a template drawn from the pool, formatted, and
   * remembered as used.
   */
  function GeneratePost(lib: seq<Template>, platform: string, preferred: string, recent: seq<string>, d: PostDraws): (g: Generation)
    requires Distinct(recent)
    ensures Distinct(g.recent)
    ensures g.post.None? <==> forall t :: t in lib ==> platform !in t.platforms
    ensures g.post.None? ==> g.recent == recent && g.template.None?
    ensures g.post.Some? ==>
      && g.template.Some?
      && var t := g.template.value;
      && t in lib && platform in t.platforms
      && t in Pool(lib, platform, preferred, recent)
      && g.post.value == BuildPost(t, platform, d.shuffle)
      && g.recent == Remember(recent, t.id)
  {
    var pool := Pool(lib, platform, preferred, recent);
    if |pool| == 0 then Generation(None, recent, None)
    else
      var t := pool[PickIndex(d.template, |pool|)];
      Generation(Some(BuildPost(t, platform, d.shuffle)), Remember(recent, t.id), Some(t))
  }

  /** A template that avoids the recently used set is preferred over one in it. */
  lemma FreshTemplateChosen(lib: seq<Template>, platform: string, recent: seq<string>, d: PostDraws)
    requires Distinct(recent)
    requires exists t :: t in lib && platform in t.platforms && t.id !in recent
    ensures GeneratePost(lib, platform, "", recent, d).post.Some?
    ensures GeneratePost(lib, platform, "", recent, d).template.value.id !in recent
  {
  }

  /** JavaScript's `%`: the remainder takes the sign of the dividend. */
  function JsRem(a: int, n: int): (r: int)
    requires n > 0
    ensures a >= 0 ==> 0 <= r < n
    ensures a < 0 ==> -n < r <= 0
  {
    if a >= 0 then a % n else -((-a) % n)
  }

  /**
   * The posting time for `platform` in round `timeIndex`: the platform's best
   * times in turn, `09:00` for a platform without a specification. A negative
   * index reaches outside the list and yields nothing (`undefined`).
   */
  function OptimalPostTime(platform: string, timeIndex: int): (r: Option<string>)
    ensures SpecFor(platform).None? ==> r == Some("09:00")
    ensures SpecFor(platform).Some? && timeIndex >= 0 ==>
      r.Some? && r.value in SpecFor(platform).value.bestPostTimes
    ensures r.Some? ==> DaytimeSlot(r.value)
  {
    var spec := SpecFor(platform);
    if spec.None? then
      DefaultTimeDaytime();
      Some("09:00")
    else
      var times := spec.value.bestPostTimes;
      BestTimesDaytime(platform);
      var k := JsRem(timeIndex, |times|);
      if k < 0 then None else Some(times[k])
  }

  lemma DefaultTimeDaytime()
    ensures DaytimeSlot("09:00")
  {
    ParseWholeHour("09");
    assert "09" + ":00" == "09:00";
    assert "09"[..1] == "0" && "0"[..0] == [];
    assert DigitsValue("09") == 9;
  }

  /** The best times repeat with the length of the list. */
  lemma OptimalPostTimeCycles(platform: string, i: nat)
    requires SpecFor(platform).Some?
    ensures OptimalPostTime(platform, i + |SpecFor(platform).value.bestPostTimes|) == OptimalPostTime(platform, i)
  {
    var n := |SpecFor(platform).value.bestPostTimes|;
    assert n == 3 || n == 4;
    assert (i + n) % n == i % n;
  }

  /** The daily mix's categories and their shares, in the order they are tried. */
  const MixCategories: seq<string> := ["feature", "pricing", "education", "usecase", "promotion", "engagement", "comparison"]
  const MixWeights: seq<real> := [0.25, 0.15, 0.20, 0.15, 0.10, 0.10, 0.05]

  /** The running total of the first `k` weights. */
  function Cumulative(k: nat): real
    requires k <= |MixWeights|
  {
    if k == 0 then 0.0 else Cumulative(k - 1) + MixWeights[k - 1]
  }

  /** The first category whose running total reaches the draw, trying from index `k` on. */
  function PickFrom(u: Unit, k: nat): (r: Option<nat>)
    requires k <= |MixWeights|
    ensures r.Some? ==> k <= r.value < |MixWeights| && u <= Cumulative(r.value + 1)
    ensures r.Some? ==> forall j :: k < j <= r.value ==> Cumulative(j) < u
    ensures r.None? ==> forall j :: k < j <= |MixWeights| ==> Cumulative(j) < u
    decreases |MixWeights| - k
  {
    if k == |MixWeights| then None
    else if u <= Cumulative(k + 1) then Some(k)
    else PickFrom(u, k + 1)
  }

  lemma CumulativeTotal()
    ensures Cumulative(|MixWeights|) == 1.0
  {
    assert Cumulative(1) == 0.25;
    assert Cumulative(2) == 0.40;
    assert Cumulative(3) == 0.60;
    assert Cumulative(4) == 0.75;
    assert Cumulative(5) == 0.85;
    assert Cumulative(6) == 0.95;
  }

  /** The category of one draw: the one whose share of [0, 1) contains it. */
  function MixCategory(u: Unit): (c: string)
    ensures c in MixCategories
    ensures exists k :: (0 <= k < |MixCategories| && c == MixCategories[k]
      && (k == 0 || Cumulative(k) < u) && u <= Cumulative(k + 1))
  {
    CumulativeTotal();
    var k := PickFrom(u, 0);
    assert k.Some?;
    var i := k.value;
    assert (i == 0 || Cumulative(i) < u) && u <= Cumulative(i + 1);
    assert |MixCategories| == |MixWeights|;
    MixCategories[i]
  }

  /** A draw in a category's share of [0, 1) gives that category. */
  lemma {:induction false} MixCategoryShare(u: Unit, k: nat)
    requires k < |MixCategories|
    requires (k == 0 || Cumulative(k) < u) && u <= Cumulative(k + 1)
    ensures MixCategory(u) == MixCategories[k]
  {
    var c := MixCategory(u);
    var j :| 0 <= j < |MixCategories| && c == MixCategories[j] && (j == 0 || Cumulative(j) < u) && u <= Cumulative(j + 1);
    CumulativeIncreasing();
    assert j == k;
  }

  lemma {:induction false} CumulativeMonotone(i: nat, j: nat)
    requires i <= j <= |MixWeights|
    ensures Cumulative(i) <= Cumulative(j)
    decreases j - i
  {
    if i < j {
      CumulativeMonotone(i, j - 1);
    }
  }

  lemma CumulativeIncreasing()
    ensures forall a, b :: 0 <= a <= b <= |MixWeights| ==> Cumulative(a) <= Cumulative(b)
  {
    forall a, b | 0 <= a <= b <= |MixWeights|
      ensures Cumulative(a) <= Cumulative(b)
    {
      CumulativeMonotone(a, b);
    }
  }

  /** The category mix of a day, one category per draw. */
  function DailyContentMix(draws: seq<Unit>): (r: seq<string>)
    ensures |r| == |draws|
    ensures forall i :: 0 <= i < |r| ==> r[i] == MixCategory(draws[i])
  {
    seq(|draws|, i requires 0 <= i < |draws| => MixCategory(draws[i]))
  }

  /** Every mixed category is a category of the library. */
  lemma MixCategoriesInLibrary()
    ensures forall k :: 0 <= k < |MixCategories| ==> MixCategories[k] in Categories
  {
  }
  /**
   * Every category the daily mix can draw has at least one template in the
   * library (whose rows carry their metadata's categories, by
   * `LibraryMatchesMetadata`).
   */
  lemma MixCategoriesHaveTemplates(k: nat)
    requires k < |MixCategories|
    ensures exists i :: 0 <= i < |TemplateMetas| && TemplateMetas[i].category == MixCategories[k]
  {
    var i := if k == 0 then 0 else if k == 1 then 10 else if k == 2 then 7 else if k == 3 then 4
             else if k == 4 then 16 else if k == 5 then 22 else 13;
    assert TemplateMetas[i].category == MixCategories[k];
  }


  /** How many templates of `lib` list `platform` (once per listing). */
  function CountPlatform(lib: seq<Template>, platform: string): nat
  {
    if |lib| == 0 then 0
    else CountPlatform(lib[..|lib| - 1], platform) + multiset(lib[|lib| - 1].platforms)[platform]
  }

  /** How many templates of `lib` are of `category`. */
  function CountCategory(lib: seq<Template>, category: string): nat
  {
    if |lib| == 0 then 0
    else CountCategory(lib[..|lib| - 1], category) + (if lib[|lib| - 1].category == category then 1 else 0)
  }

  /** The library statistics. */
  datatype ContentStats = ContentStats(
    totalTemplates: nat,
    byPlatform: map<string, nat>,
    byCategory: map<string, nat>)

  /** Adding one to `key`'s tally. */
  function Bump(m: map<string, nat>, key: string): map<string, nat>
  {
    m[key := (if key in m then m[key] else 0) + 1]
  }

  function BumpAll(m: map<string, nat>, keys: seq<string>): map<string, nat>
  {
    if |keys| == 0 then m else Bump(BumpAll(m, keys[..|keys| - 1]), keys[|keys| - 1])
  }

  /** The statistics of a library, counted template by template. */
  function Stats(lib: seq<Template>): (s: ContentStats)
    ensures s.totalTemplates == |lib|
  {
    if |lib| == 0 then ContentStats(0, map[], map[])
    else
      var prior := Stats(lib[..|lib| - 1]);
      var t := lib[|lib| - 1];
      ContentStats(|lib|, BumpAll(prior.byPlatform, t.platforms), Bump(prior.byCategory, t.category))
  }

  lemma {:induction false} BumpAllCounts(m: map<string, nat>, keys: seq<string>, p: string)
    ensures p in BumpAll(m, keys) <==> p in m || p in keys
    ensures (if p in BumpAll(m, keys) then BumpAll(m, keys)[p] else 0)
         == (if p in m then m[p] else 0) + multiset(keys)[p]
    decreases |keys|
  {
    if |keys| > 0 {
      BumpAllCounts(m, keys[..|keys| - 1], p);
      assert keys == keys[..|keys| - 1] + [keys[|keys| - 1]];
    }
  }

  /** Each tally equals the number of templates it counts, and tallies exist only for counted keys. */
  lemma {:induction false} StatsCount(lib: seq<Template>, p: string, c: string)
    ensures (p in Stats(lib).byPlatform <==> CountPlatform(lib, p) > 0)
    ensures p in Stats(lib).byPlatform ==> Stats(lib).byPlatform[p] == CountPlatform(lib, p)
    ensures (c in Stats(lib).byCategory <==> CountCategory(lib, c) > 0)
    ensures c in Stats(lib).byCategory ==> Stats(lib).byCategory[c] == CountCategory(lib, c)
    decreases |lib|
  {
    if |lib| > 0 {
      var prior := Stats(lib[..|lib| - 1]);
      StatsCount(lib[..|lib| - 1], p, c);
      BumpAllCounts(prior.byPlatform, lib[|lib| - 1].platforms, p);
    }
  }
}
