/**
 * How the scheduler sizes and spreads a day: the number of posts drawn for
 * the day, their split across the authenticated platforms, and the minute
 * each post is placed at.
 */
module Allocation {
  import opened Common
  import opened Text
  import opened Templates
  import opened Generator

  /** The configured bounds on posts per day (their defaults). */
  const PostsPerDayMin: int := 3
  const PostsPerDayMax: int := 6

  /** `Math.floor(Math.random() * (max - min + 1)) + min`. */
  function TotalPostsToday(u: Unit, min: int, max: int): (n: int)
    ensures min <= max ==> min <= n <= max
  {
    (u * (max - min + 1) as real).Floor + min
  }

  /** A platform's share of the day in percent; a platform the table does not list gets 10. */
  function SharePercent(platform: string): (w: int)
    ensures 10 <= w <= 30
    ensures platform !in ["twitter", "linkedin", "facebook", "reddit", "instagram"] ==> w == 10
  {
    if platform == "twitter" then 30
    else if platform == "linkedin" then 25
    else if platform == "facebook" then 20
    else if platform == "reddit" then 15
    else 10
  }

  /** `Math.max(1, Math.floor(totalPosts * priority))`. */
  function Quota(platform: string, total: int): (c: int)
    ensures c >= 1
    ensures total >= 0 ==> c <= Max(1, total)
  {
    Max(1, (total * SharePercent(platform)) / 100)
  }

  /**
   * The per-platform loop of the distribution: each platform in turn is set
   * to `min(quota, remaining)`, the quota is taken off `remaining`, and the
   * loop stops once nothing remains. Returns the values set (one per
   * platform reached) and what remains.
   */
  function Allot(names: seq<string>, total: int, remaining: int): (r: (seq<int>, int))
    ensures |r.0| <= |names|
    ensures |names| > 0 ==> |r.0| > 0
    ensures |r.0| < |names| ==> r.1 <= 0
    ensures remaining >= 0 ==> Sum(r.0) + Max(r.1, 0) == remaining
    ensures remaining > 0 ==> forall k :: 0 <= k < |r.0| ==> r.0[k] >= 1
    ensures remaining >= 0 ==> forall k :: 0 <= k < |r.0| ==> 0 <= r.0[k] <= remaining
    decreases |names|
  {
    if |names| == 0 then ([], remaining)
    else
      var count := Quota(names[0], total);
      var given := Min(count, remaining);
      var left := remaining - count;
      if left <= 0 then ([given], left)
      else
        var rest := Allot(names[1..], total, left);
        SumCons(given, rest.0);
        ([given] + rest.0, rest.1)
  }

  lemma {:induction false} SumCons(x: int, xs: seq<int>)
    ensures Sum([x] + xs) == x + Sum(xs)
    decreases |xs|
  {
    if |xs| > 0 {
      SumCons(x, xs[..|xs| - 1]);
      assert ([x] + xs)[..|xs|] == [x] + xs[..|xs| - 1];
    }
  }

  /** The map the loop builds: `names[k]` set to `values[k]`, later settings overwriting earlier ones. */
  function Assign(names: seq<string>, values: seq<int>): (m: map<string, int>)
    requires |values| <= |names|
    ensures forall k :: 0 <= k < |values| ==> names[k] in m
    ensures forall x :: x in m ==> x in names[..|values|]
    decreases |values|
  {
    if |values| == 0 then map[]
    else
      var n := |values| - 1;
      var m := Assign(names, values[..n])[names[n] := values[n]];
      assert forall x :: x in names[..n] ==> x in names[..|values|];
      m
  }

  /**
   * `distributePosts`: the loop's settings, then any remainder added to the
   * first platform.
   */
  function DistributePosts(names: seq<string>, total: int): (m: map<string, int>)
    requires |names| > 0
    ensures names[0] in m
    ensures forall x :: x in m ==> x in names
  {
    var r := Allot(names, total, total);
    var m := Assign(names, r.0);
    if r.1 > 0 then m[names[0] := m[names[0]] + r.1] else m
  }

  /** `distribution.get(name) || 0`: a platform's planned post count. */
  function Planned(m: map<string, int>, name: string): int
  {
    if name in m then m[name] else 0
  }

  lemma {:induction false} AssignAt(names: seq<string>, values: seq<int>, k: nat)
    requires |values| <= |names| && Distinct(names) && k < |names|
    ensures Planned(Assign(names, values), names[k]) == if k < |values| then values[k] else 0
    decreases |values|
  {
    if |values| > 0 {
      var n := |values| - 1;
      AssignAt(names, values[..n], k);
      if k != n {
        assert names[k] != names[n];
      }
    } else {
      assert names[k] !in Assign(names, values);
    }
  }

  /** The planned counts, platform by platform. */
  function PlannedCounts(m: map<string, int>, names: seq<string>): (r: seq<int>)
    ensures |r| == |names|
    ensures forall k :: 0 <= k < |names| ==> r[k] == Planned(m, names[k])
  {
    seq(|names|, k requires 0 <= k < |names| => Planned(m, names[k]))
  }

  /** What the distribution plans for the platform at position `k`. */
  lemma DistributeAt(names: seq<string>, total: int, k: nat)
    requires |names| > 0 && Distinct(names) && k < |names|
    ensures var r := Allot(names, total, total);
      Planned(DistributePosts(names, total), names[k])
      == (if k < |r.0| then r.0[k] else 0) + (if k == 0 then Max(r.1, 0) else 0)
  {
    var r := Allot(names, total, total);
    AssignAt(names, r.0, k);
    AssignAt(names, r.0, 0);
    if k != 0 {
      assert names[k] != names[0];
    }
  }

  /** The planned counts of distinct platforms add up to the day's total. */
  lemma DistributionSumsToTotal(names: seq<string>, total: int)
    requires |names| > 0 && Distinct(names) && total >= 0
    ensures Sum(PlannedCounts(DistributePosts(names, total), names)) == total
  {
    var r := Allot(names, total, total);
    var counts := PlannedCounts(DistributePosts(names, total), names);
    forall k | 0 <= k < |names|
      ensures counts[k] == (if k < |r.0| then r.0[k] else 0) + (if k == 0 then Max(r.1, 0) else 0)
    {
      DistributeAt(names, total, k);
    }
    SumOfPlan(counts, r.0, Max(r.1, 0));
  }

  /** Counts that are the loop's settings padded with zeros, plus a bump on the first, sum to their sum plus the bump. */
  lemma SumOfPlan(counts: seq<int>, values: seq<int>, bump: int)
    requires 0 < |counts| && |values| <= |counts|
    requires forall k :: 0 <= k < |counts| ==>
      counts[k] == (if k < |values| then values[k] else 0) + (if k == 0 then bump else 0)
    ensures Sum(counts) == Sum(values) + bump
  {
    var padded := values + seq(|counts| - |values|, _ => 0);
    assert counts == padded[0 := padded[0] + bump];
    SumPadded(values, |counts|);
    SumBumpFirst(padded, bump);
  }

  lemma {:induction false} SumPadded(xs: seq<int>, n: nat)
    requires |xs| <= n
    ensures Sum(xs + seq(n - |xs|, _ => 0)) == Sum(xs)
    decreases n - |xs|
  {
    if |xs| < n {
      var zs := seq(n - |xs|, _ => 0);
      SumPadded(xs + [0], n);
      assert xs + [0] + seq(n - |xs| - 1, _ => 0) == xs + zs;
      assert (xs + [0])[..|xs|] == xs;
    } else {
      assert xs + seq(n - |xs|, _ => 0) == xs;
    }
  }

  lemma {:induction false} SumBumpFirst(xs: seq<int>, d: int)
    requires |xs| > 0
    ensures Sum(xs[0 := xs[0] + d]) == Sum(xs) + d
    decreases |xs|
  {
    if |xs| > 1 {
      var n := |xs| - 1;
      SumBumpFirst(xs[..n], d);
      assert xs[0 := xs[0] + d][..n] == xs[..n][0 := xs[0] + d];
    }
  }

  /**
   * Every platform reached before the budget runs out is planned between 1
   * and `total` posts; the first platform always has an entry.
   */
  lemma DistributionBounds(names: seq<string>, total: int, k: nat)
    requires |names| > 0 && Distinct(names) && total >= 1 && k < |names|
    requires names[k] in DistributePosts(names, total)
    ensures 1 <= Planned(DistributePosts(names, total), names[k]) <= total
  {
    var r := Allot(names, total, total);
    DistributeAt(names, total, k);
    if k == 0 {
      SumCons(r.0[0], r.0[1..]);
      assert [r.0[0]] + r.0[1..] == r.0;
      NonNegativeSum(r.0[1..]);
    }
  }

  lemma {:induction false} NonNegativeSum(xs: seq<int>)
    requires forall k :: 0 <= k < |xs| ==> xs[k] >= 0
    ensures Sum(xs) >= 0
    decreases |xs|
  {
    if |xs| > 0 {
      NonNegativeSum(xs[..|xs| - 1]);
    }
  }

  /** The leftover goes to the first platform: it is planned at least its loop setting. */
  lemma LeftoverToFirst(names: seq<string>, total: int)
    requires |names| > 0 && Distinct(names) && total >= 0
    ensures var r := Allot(names, total, total);
      Planned(DistributePosts(names, total), names[0]) == r.0[0] + Max(r.1, 0)
  {
    var r := Allot(names, total, total);
    AssignAt(names, r.0, 0);
  }

  /**
   * The minute a post is placed at: the start of `today`, plus the hour and
   * minute of the platform's best time for round `index`, plus a jitter of
   * `Math.floor(u * 60) - 30` minutes.
   */
  function SlotTime(platform: string, index: nat, today: int, u: Unit): (t: int)
    ensures var c := ParseClock(OptimalPostTime(platform, index).value);
      c.Some? && t == StartOfDay(today) + 60 * c.value.0 + c.value.1 + Jitter(u)
    ensures StartOfDay(today) + 330 <= t <= StartOfDay(today) + 1289
    ensures DayOf(t) == today
  {
    var time := OptimalPostTime(platform, index);
    assert time.Some?;
    var c := ParseClock(time.value).value;
    StartOfDay(today) + 60 * c.0 + c.1 + Jitter(u)
  }

  /** `Math.floor(Math.random() * 60) - 30`: from -30 to 29. */
  function Jitter(u: Unit): (j: int)
    ensures -30 <= j <= 29
  {
    PickIndex(u, 60) - 30
  }
}
