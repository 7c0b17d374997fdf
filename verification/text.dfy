/**
 * The JavaScript string operations the program relies on, over `seq<char>`:
 * `includes`, `replace` with a string pattern, `toLowerCase`, `split`/`join`
 * with a one-character separator, `slice`/`substring` index clamping, and
 * decimal rendering and parsing of whole numbers.
 */
module Text {
  import opened Common

  /** `s` occurs in `t` starting at index `i`. */
  predicate OccursAt(t: string, s: string, i: int)
  {
    0 <= i && i + |s| <= |t| && t[i..i + |s|] == s
  }

  /** Index of the first occurrence of `pat` in `t` at or after `from` (`indexOf`). */
  function IndexFrom(t: string, pat: string, from: nat): (r: Option<nat>)
    ensures r.Some? ==> from <= r.value && OccursAt(t, pat, r.value)
    ensures r.Some? ==> forall j :: from <= j < r.value ==> !OccursAt(t, pat, j)
    ensures r.None? ==> forall j :: from <= j ==> !OccursAt(t, pat, j)
    decreases |t| - from
  {
    if from + |pat| > |t| then None
    else if t[from..from + |pat|] == pat then Some(from)
    else IndexFrom(t, pat, from + 1)
  }

  function IndexOf(t: string, pat: string): Option<nat>
  {
    IndexFrom(t, pat, 0)
  }

  /** `t.includes(pat)`. */
  predicate Includes(t: string, pat: string)
  {
    IndexOf(t, pat).Some?
  }

  lemma IncludesIff(t: string, pat: string)
    ensures Includes(t, pat) <==> exists i :: OccursAt(t, pat, i)
  {
  }

  lemma {:induction false} IncludesMiddle(a: string, b: string, c: string)
    ensures Includes(a + b + c, b)
  {
    var t := a + b + c;
    assert t[|a|..|a| + |b|] == b;
    assert OccursAt(t, b, |a|);
    IncludesIff(t, b);
  }

  lemma {:induction false} IncludesWithin(t: string, s: string, pat: string, i: int)
    requires OccursAt(t, s, i)
    requires Includes(s, pat)
    ensures Includes(t, pat)
  {
    var k := IndexOf(s, pat).value;
    assert s == t[i..i + |s|] && s[k..k + |pat|] == pat;
    forall m | 0 <= m < |pat|
      ensures t[i + k..i + k + |pat|][m] == pat[m]
    {
      assert s[k + m] == pat[m];
    }
    assert t[i + k..i + k + |pat|] == pat;
    assert OccursAt(t, pat, i + k);
    IncludesIff(t, pat);
  }

  /**
   * The text a `$` pattern of a replacement string stands for when the
   * search value is a string (GetSubstitution, section 22.1.3.19.1 of
   * ECMA-262): `$$` is a dollar sign, `$&` the matched text, `` $` `` the
   * text before the match and `$'` the text after it.
   */
  function Expansion(c: char, matched: string, before: string, after: string): string
    requires c in "$&`'"
  {
    if c == '$' then "$" else if c == '&' then matched else if c == '`' then before else after
  }

  /**
   * The replacement string with its `$` patterns expanded. A string search
   * value has no capture groups, so `$1`, `$<` and a `$` before any other
   * character stay as written.
   */
  function GetSubstitution(repl: string, matched: string, before: string, after: string): (r: string)
    ensures '$' !in repl ==> r == repl
    decreases |repl|
  {
    if |repl| == 0 then ""
    else if repl[0] == '$' && |repl| >= 2 && repl[1] in "$&`'" then
      Expansion(repl[1], matched, before, after) + GetSubstitution(repl[2..], matched, before, after)
    else [repl[0]] + GetSubstitution(repl[1..], matched, before, after)
  }

  /**
   * `t.replace(pat, repl)` with a string pattern and a string replacement:
   * only the FIRST occurrence is replaced, by `repl` with its `$` patterns
   * expanded; with no occurrence the string is returned unchanged. The text
   * before and after the match is kept.
   */
  function ReplaceFirst(t: string, pat: string, repl: string): (r: string)
    ensures IndexOf(t, pat).None? ==> r == t
    ensures IndexOf(t, pat).Some? && '$' !in repl ==> |r| == |t| - |pat| + |repl|
  {
    if IndexOf(t, pat).None? then t
    else
      var i := IndexOf(t, pat).value;
      t[..i] + GetSubstitution(repl, pat, t[..i], t[i + |pat|..]) + t[i + |pat|..]
  }

  /** A replacement of `$&` puts the matched text back: the string is unchanged. */
  lemma ReplaceWithMatch(t: string, pat: string)
    ensures ReplaceFirst(t, pat, "$&") == t
  {
    if IndexOf(t, pat).Some? {
      var i := IndexOf(t, pat).value;
      ReplaceAt(t, pat, "$&", i);
      MatchToken(pat, t[..i], t[i + |pat|..]);
      assert t[..i] + pat + t[i + |pat|..] == t;
    }
  }

  /** `$&` expands to the matched text. */
  lemma MatchToken(matched: string, before: string, after: string)
    ensures GetSubstitution("$&", matched, before, after) == matched
  {
    assert "$&"[2..] == "";
  }

  /**
   * Each of the four patterns alone expands to what it stands for, and a
   * `$` before any other character, or at the end, stays as written.
   */
  lemma DollarPatterns(matched: string, before: string, after: string, c: char)
    ensures GetSubstitution("$$", matched, before, after) == "$"
    ensures GetSubstitution("$`", matched, before, after) == before
    ensures GetSubstitution("$'", matched, before, after) == after
    ensures c !in "$&`'" ==> GetSubstitution(['$', c], matched, before, after) == ['$', c]
    ensures GetSubstitution("$", matched, before, after) == "$"
  {
    assert "$$"[2..] == "" && "$`"[2..] == "" && "$'"[2..] == "";
    assert ['$', c][1..] == [c] && [c][1..] == [] && "$"[1..] == "";
  }

  /** A replacement of `$$` inserts one dollar sign. */
  lemma ReplaceWithDollars(t: string, pat: string)
    requires IndexOf(t, pat).Some?
    ensures var i := IndexOf(t, pat).value;
      ReplaceFirst(t, pat, "$$") == t[..i] + "$" + t[i + |pat|..]
  {
    assert "$$"[2..] == "";
  }

  /** An occurrence with none before it is the one `indexOf` finds. */
  lemma IndexOfIs(t: string, pat: string, x: nat)
    requires OccursAt(t, pat, x)
    requires forall j :: 0 <= j < x ==> !OccursAt(t, pat, j)
    ensures IndexOf(t, pat) == Some(x)
  {
  }

  /** An occurrence in `b` is one in `a + b`, shifted by `|a|`, and back. */
  lemma OccursShift(a: string, b: string, pat: string, m: int)
    requires m >= 0
    ensures OccursAt(a + b, pat, |a| + m) <==> OccursAt(b, pat, m)
  {
    if 0 <= m && m + |pat| <= |b| {
      assert (a + b)[|a| + m..|a| + m + |pat|] == b[m..m + |pat|];
    }
  }

  /** A pattern that starts nowhere inside `a` is first found in `a + b` where it is first found in `b`. */
  lemma IndexSkip(a: string, b: string, pat: string)
    requires forall i :: 0 <= i < |a| ==> !OccursAt(a + b, pat, i)
    ensures IndexOf(b, pat).None? ==> IndexOf(a + b, pat).None?
    ensures IndexOf(b, pat).Some? ==> IndexOf(a + b, pat) == Some(|a| + IndexOf(b, pat).value)
  {
    var t := a + b;
    match IndexOf(b, pat)
    case None =>
      forall j | 0 <= j
        ensures !OccursAt(t, pat, j)
      {
        if j >= |a| {
          OccursShift(a, b, pat, j - |a|);
        }
      }
    case Some(m) =>
      forall j | 0 <= j < |a| + m
        ensures !OccursAt(t, pat, j)
      {
        if j >= |a| {
          OccursShift(a, b, pat, j - |a|);
        }
      }
      OccursShift(a, b, pat, m);
      IndexOfIs(t, pat, |a| + m);
  }

  /**
   * A pattern that starts nowhere inside `a` is replaced inside `b`, when the
   * replacement has no `$` (`` $` `` would bring `a` into the inserted text).
   */
  lemma ReplaceSkip(a: string, b: string, pat: string, repl: string)
    requires forall i :: 0 <= i < |a| ==> !OccursAt(a + b, pat, i)
    requires '$' !in repl
    ensures ReplaceFirst(a + b, pat, repl) == a + ReplaceFirst(b, pat, repl)
  {
    IndexSkip(a, b, pat);
    if IndexOf(b, pat).Some? {
      ReplaceShifted(a, b, pat, repl, IndexOf(b, pat).value);
    }
  }

  lemma ReplaceShifted(a: string, b: string, pat: string, repl: string, m: nat)
    requires IndexOf(b, pat) == Some(m) && IndexOf(a + b, pat) == Some(|a| + m)
    requires '$' !in repl
    ensures ReplaceFirst(a + b, pat, repl) == a + ReplaceFirst(b, pat, repl)
  {
    var t := a + b;
    var i := |a| + m;
    var front, back := b[..m], b[m + |pat|..];
    assert t[..i] == a + front;
    assert t[i + |pat|..] == back;
    calc {
      ReplaceFirst(t, pat, repl);
      { ReplacePlainAt(t, pat, repl, i); }
      t[..i] + repl + t[i + |pat|..];
      (a + front) + repl + back;
      { SeqAssoc(a, front, repl, back); }
      a + (front + repl + back);
      { ReplacePlainAt(b, pat, repl, m); }
      a + ReplaceFirst(b, pat, repl);
    }
  }

  /** Dropping past `a` in `a + b` drops within `b`. */
  lemma DropPast(a: string, b: string, n: nat)
    requires n <= |b|
    ensures (a + b)[|a| + n..] == b[n..]
  {
  }

  lemma SeqAssoc(a: string, b: string, c: string, d: string)
    ensures (a + b) + c + d == a + (b + c + d)
  {
  }

  /** The match at `i` is replaced by the replacement with its `$` patterns expanded; the text around it is kept. */
  lemma ReplaceAt(t: string, pat: string, repl: string, i: nat)
    requires IndexOf(t, pat) == Some(i)
    ensures ReplaceFirst(t, pat, repl)
      == t[..i] + GetSubstitution(repl, pat, t[..i], t[i + |pat|..]) + t[i + |pat|..]
  {
  }

  /** A replacement without `$` is pasted as written in place of the match at `i`. */
  lemma ReplacePlainAt(t: string, pat: string, repl: string, i: nat)
    requires IndexOf(t, pat) == Some(i)
    requires '$' !in repl
    ensures i + |pat| <= |t|
    ensures ReplaceFirst(t, pat, repl) == t[..i] + repl + t[i + |pat|..]
  {
    ReplaceAt(t, pat, repl, i);
  }

  /** A pattern at the very start is the one replaced; nothing comes before it. */
  lemma ReplaceAtStart(pat: string, rest: string, repl: string)
    ensures ReplaceFirst(pat + rest, pat, repl) == GetSubstitution(repl, pat, "", rest) + rest
    ensures '$' !in repl ==> ReplaceFirst(pat + rest, pat, repl) == repl + rest
  {
    var t := pat + rest;
    assert t[0..|pat|] == pat;
    IndexOfIs(t, pat, 0);
    assert t[..0] == "" && t[|pat|..] == rest;
  }

  /**
   * Only the first occurrence is replaced: an occurrence after it is still
   * there, at the same distance from the end, and so moved by the
   * difference in length when the replacement has no `$`.
   */
  lemma ReplaceKeepsLater(t: string, pat: string, repl: string, j: int)
    requires IndexOf(t, pat).Some? && OccursAt(t, pat, j)
    requires j >= IndexOf(t, pat).value + |pat|
    ensures var r := ReplaceFirst(t, pat, repl); OccursAt(r, pat, |r| - |t| + j)
    ensures '$' !in repl ==> OccursAt(ReplaceFirst(t, pat, repl), pat, j - |pat| + |repl|)
    ensures Includes(ReplaceFirst(t, pat, repl), pat)
  {
    LaterFromEnd(t, pat, repl, j);
    var r := ReplaceFirst(t, pat, repl);
    IncludesIff(r, pat);
  }

  /** The occurrence after the first match is found at the same distance from the end. */
  lemma LaterFromEnd(t: string, pat: string, repl: string, j: int)
    requires IndexOf(t, pat).Some? && OccursAt(t, pat, j)
    requires j >= IndexOf(t, pat).value + |pat|
    ensures var r := ReplaceFirst(t, pat, repl); OccursAt(r, pat, |r| - |t| + j)
  {
    var i := IndexOf(t, pat).value;
    var r := ReplaceFirst(t, pat, repl);
    var tail := t[i + |pat|..];
    assert r == r[..|r| - |tail|] + tail;
    OccursInTail(r[..|r| - |tail|], t[..i + |pat|], tail, pat, j - i - |pat|);
  }

  /** An occurrence in a shared tail is found at the same distance from the end of both strings. */
  lemma OccursInTail(h1: string, h2: string, tail: string, pat: string, m: int)
    requires m >= 0 && OccursAt(h2 + tail, pat, |h2| + m)
    ensures OccursAt(h1 + tail, pat, |h1| + m)
  {
    OccursShift(h2, tail, pat, m);
    OccursShift(h1, tail, pat, m);
  }

  function LowerChar(c: char): char
  {
    if 'A' <= c <= 'Z' then (c as int + 32) as char else c
  }

  /** `toLowerCase`, restricted to the ASCII letters. */
  function Lower(s: string): (r: string)
    ensures |r| == |s|
    ensures forall i :: 0 <= i < |s| ==> r[i] == LowerChar(s[i])
  {
    if |s| == 0 then "" else [LowerChar(s[0])] + Lower(s[1..])
  }

  /** `parts.join(sep)` with a one-character separator. */
  function Join(parts: seq<string>, sep: char): string
  {
    if |parts| == 0 then ""
    else if |parts| == 1 then parts[0]
    else parts[0] + [sep] + Join(parts[1..], sep)
  }

  /** `s.split(sep)` with a one-character separator; never empty. */
  function Split(s: string, sep: char): (r: seq<string>)
    ensures |r| >= 1
    decreases |s|
  {
    if |s| == 0 then [""]
    else if s[0] == sep then [""] + Split(s[1..], sep)
    else
      var rest := Split(s[1..], sep);
      [[s[0]] + rest[0]] + rest[1..]
  }

  lemma {:induction false} SplitFree(p: string, sep: char)
    requires sep !in p
    ensures Split(p, sep) == [p]
    decreases |p|
  {
    if |p| > 0 {
      SplitFree(p[1..], sep);
      assert [p[0]] + p[1..] == p;
    }
  }

  lemma {:induction false} SplitCons(p: string, sep: char, rest: string)
    requires sep !in p
    ensures Split(p + [sep] + rest, sep) == [p] + Split(rest, sep)
    decreases |p|
  {
    var t := p + [sep] + rest;
    if |p| == 0 {
      assert t[0] == sep && t[1..] == rest;
    } else {
      assert t[0] == p[0] && t[1..] == p[1..] + [sep] + rest;
      SplitCons(p[1..], sep, rest);
      assert [p[0]] + p[1..] == p;
    }
  }

  /** Splitting undoes joining when no part contains the separator. */
  lemma {:induction false} SplitJoin(parts: seq<string>, sep: char)
    requires |parts| >= 1
    requires forall k :: 0 <= k < |parts| ==> sep !in parts[k]
    ensures Split(Join(parts, sep), sep) == parts
    decreases |parts|
  {
    if |parts| == 1 {
      SplitFree(parts[0], sep);
    } else {
      SplitJoin(parts[1..], sep);
      SplitCons(parts[0], sep, Join(parts[1..], sep));
      assert [parts[0]] + parts[1..] == parts;
    }
  }

  /** The result of joining contains a character only if a part or the separator does. */
  lemma {:induction false} JoinFree(parts: seq<string>, sep: char, c: char)
    requires c != sep
    requires forall k :: 0 <= k < |parts| ==> c !in parts[k]
    ensures c !in Join(parts, sep)
    decreases |parts|
  {
    if |parts| > 1 {
      JoinFree(parts[1..], sep, c);
    }
  }

  /** `p` is a prefix of `s`. */
  predicate StartsWith(s: string, p: string)
  {
    |p| <= |s| && s[..|p|] == p
  }

  lemma PrefixOfConcat(a: string, b: string)
    ensures StartsWith(a + b, a)
  {
    assert (a + b)[..|a|] == a;
  }

  lemma PrefixTrans(s: string, p: string, q: string)
    requires StartsWith(s, p) && StartsWith(p, q)
    ensures StartsWith(s, q)
  {
    assert s[..|q|] == s[..|p|][..|q|];
  }

  /**
   * The end index `s.slice(0, end)` actually uses for a string of length
   * `len`: a negative end counts from the back, and both ends clamp.
   */
  function SliceEnd(len: nat, end: int): (r: nat)
    ensures r <= len
    ensures 0 <= end ==> r == Min(end, len)
    ensures end < 0 ==> r == Max(0, len + end)
  {
    if end < 0 then (if len + end < 0 then 0 else len + end)
    else if end > len then len
    else end
  }

  /** `xs.slice(0, end)`. */
  function SlicePrefix<T>(xs: seq<T>, end: int): (r: seq<T>)
    ensures |r| == SliceEnd(|xs|, end)
    ensures r == xs[..|r|]
  {
    xs[..SliceEnd(|xs|, end)]
  }

  predicate IsDigit(c: char) { '0' <= c <= '9' }

  predicate AllDigits(s: string) { forall i :: 0 <= i < |s| ==> IsDigit(s[i]) }

  function DigitChar(d: nat): (c: char)
    requires d < 10
    ensures IsDigit(c)
  {
    ('0' as int + d) as char
  }

  function DigitValue(c: char): nat
    requires IsDigit(c)
  {
    c as int - '0' as int
  }

  /** Decimal rendering of a whole number (`String(n)`). */
  function NatToString(n: nat): (s: string)
    ensures |s| >= 1 && AllDigits(s)
    decreases n
  {
    if n < 10 then [DigitChar(n)] else NatToString(n / 10) + [DigitChar(n % 10)]
  }

  /** Decimal rendering of an integer, with a leading `-` when negative. */
  function IntToString(i: int): (s: string)
    ensures |s| >= 1
    ensures ',' !in s && '\n' !in s
  {
    if i < 0 then "-" + NatToString(-i) else NatToString(i)
  }

  function DigitsValue(s: string): nat
    requires AllDigits(s)
  {
    if |s| == 0 then 0 else DigitsValue(s[..|s| - 1]) * 10 + DigitValue(s[|s| - 1])
  }

  /** A non-empty run of decimal digits, read as a whole number. */
  function ParseNat(s: string): Option<nat>
  {
    if |s| > 0 && AllDigits(s) then Some(DigitsValue(s)) else None
  }

  /** Reading back a rendered whole number gives the number. */
  lemma {:induction false} ParseNatToString(n: nat)
    ensures ParseNat(NatToString(n)) == Some(n)
    decreases n
  {
    var s := NatToString(n);
    if n < 10 {
      assert s[..0] == [];
      assert DigitsValue(s) == DigitValue(DigitChar(n));
    } else {
      ParseNatToString(n / 10);
      assert s[..|s| - 1] == NatToString(n / 10);
      assert DigitsValue(s) == (n / 10) * 10 + DigitValue(DigitChar(n % 10));
    }
  }
}
