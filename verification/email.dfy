/**
 * The email marketing manager: the six message templates, placeholder
 * substitution with `String.replace`, campaign creation, the send loop that
 * counts delivered and failed messages, the welcome drip and the newsletter.
 *
 * Template content is kept as a sequence of pieces, prose and `{{name}}`
 * placeholders, so that what `replace` does to the rendered text can be
 * stated as what happens to the pieces.
 */
module Email {
  import opened Common
  import opened Text

  // ---------------------------------------------------------------------
  // Template content
  // ---------------------------------------------------------------------

  /** A stretch of template content: literal prose or a `{{name}}` placeholder. */
  datatype Piece = Prose(text: string) | Hole(name: string)

  /** The text `{{key}}` that `replace` looks for. */
  function Placeholder(key: string): (r: string)
    ensures |r| == |key| + 4
  {
    "{{" + key + "}}"
  }

  function PieceText(p: Piece): string
  {
    match p
    case Prose(t) => t
    case Hole(k) => Placeholder(k)
  }

  /** The content string the pieces stand for. */
  function Render(ps: seq<Piece>): string
  {
    if |ps| == 0 then "" else PieceText(ps[0]) + Render(ps[1..])
  }

  /** The placeholder names of `ps`, in order of appearance. */
  function Holes(ps: seq<Piece>): seq<string>
  {
    if |ps| == 0 then []
    else (if ps[0].Hole? then [ps[0].name] else []) + Holes(ps[1..])
  }

  predicate NoOpenBrace(s: string)
  {
    forall i :: 0 <= i < |s| ==> s[i] != '{'
  }

  lemma NoOpenBraceConcat(a: string, b: string)
    requires NoOpenBrace(a) && NoOpenBrace(b)
    ensures NoOpenBrace(a + b)
  {
  }

  predicate BraceFree(s: string)
  {
    forall i :: 0 <= i < |s| ==> s[i] != '{' && s[i] != '}'
  }

  /** Prose never starts a placeholder; placeholder names hold no braces. */
  predicate PieceOk(p: Piece)
  {
    match p
    case Prose(t) => NoOpenBrace(t)
    case Hole(k) => BraceFree(k)
  }

  predicate WellFormed(ps: seq<Piece>)
  {
    forall i :: 0 <= i < |ps| ==> PieceOk(ps[i])
  }

  lemma WellFormedTail(ps: seq<Piece>)
    requires |ps| > 0 && WellFormed(ps)
    ensures PieceOk(ps[0]) && WellFormed(ps[1..])
  {
    assert forall i :: 0 <= i < |ps| - 1 ==> ps[1..][i] == ps[i + 1];
  }

  /**
   * The pieces after the first placeholder named `k` is filled with `v`:
   * the piece-level meaning of `content.replace('{{k}}', v)`.
   */
  function FillFirst(ps: seq<Piece>, k: string, v: string): (r: seq<Piece>)
    ensures |r| == |ps|
    ensures multiset(Holes(r)) == multiset(Holes(ps)) - multiset{k}
  {
    if |ps| == 0 then []
    else if ps[0] == Hole(k) then
      var r := [Prose(v)] + ps[1..];
      assert r[1..] == ps[1..];
      r
    else
      var tail := FillFirst(ps[1..], k, v);
      var r := [ps[0]] + tail;
      assert r[1..] == tail;
      r
  }

  /** Filling with a value that opens no placeholder keeps content well formed. */
  lemma {:induction false} FillFirstWellFormed(ps: seq<Piece>, k: string, v: string)
    requires WellFormed(ps) && NoOpenBrace(v)
    ensures WellFormed(FillFirst(ps, k, v))
  {
    if |ps| > 0 {
      WellFormedTail(ps);
      if ps[0] != Hole(k) {
        FillFirstWellFormed(ps[1..], k, v);
        var r := FillFirst(ps, k, v);
        assert r == [ps[0]] + FillFirst(ps[1..], k, v);
      }
    }
  }

  /** A mismatch at offset `d` rules out an occurrence at `o`. */
  lemma Mismatch(t: string, pat: string, o: int, d: nat)
    requires 0 <= o && d < |pat| && o + d < |t| && t[o + d] != pat[d]
    ensures !OccursAt(t, pat, o)
  {
    if o + |pat| <= |t| {
      assert t[o..o + |pat|][d] == t[o + d];
    }
  }

  lemma MismatchIn(a: string, rest: string, pat: string, o: int, d: nat)
    requires 0 <= o && d < |pat| && o + d < |a| && a[o + d] != pat[d]
    ensures !OccursAt(a + rest, pat, o)
  {
    Mismatch(a + rest, pat, o, d);
  }

  /** No `{{k}}` starts inside a piece other than `Hole(k)`. */
  lemma NoStartIn(p: Piece, rest: string, k: string)
    requires PieceOk(p) && BraceFree(k) && p != Hole(k)
    ensures forall o :: 0 <= o < |PieceText(p)| ==> !OccursAt(PieceText(p) + rest, Placeholder(k), o)
  {
    var a := PieceText(p);
    var pat := Placeholder(k);
    var t := a + rest;
    forall o | 0 <= o < |a|
      ensures !OccursAt(t, pat, o)
    {
      match p
      case Prose(s) =>
        Mismatch(t, pat, o, 0);
      case Hole(j) =>
        HoleMismatch(j, k, rest, o);
    }
  }

  lemma PlaceholderChars(k: string)
    ensures var p := Placeholder(k);
      && p[0] == '{' && p[1] == '{' && p[|k| + 2] == '}' && p[|k| + 3] == '}'
      && forall m :: 0 <= m < |k| ==> p[m + 2] == k[m]
  {
  }

  lemma HoleMismatch(j: string, k: string, rest: string, o: int)
    requires BraceFree(j) && BraceFree(k) && j != k
    requires 0 <= o < |j| + 4
    ensures !OccursAt(Placeholder(j) + rest, Placeholder(k), o)
  {
    if o == 0 {
      HoleMismatchAtStart(j, k, rest);
    } else {
      HoleMismatchInside(j, k, rest, o);
    }
  }

  /** Past its first brace, a placeholder holds no `{{`. */
  lemma HoleMismatchInside(j: string, k: string, rest: string, o: int)
    requires BraceFree(j) && 1 <= o < |j| + 4
    ensures !OccursAt(Placeholder(j) + rest, Placeholder(k), o)
  {
    var a := Placeholder(j);
    var pat := Placeholder(k);
    PlaceholderChars(j);
    PlaceholderChars(k);
    if o == 1 {
      assert |j| == 0 || a[o + 1] == j[0];
      MismatchIn(a, rest, pat, o, 1);
    } else {
      assert o - 2 >= |j| || a[o] == j[o - 2];
      MismatchIn(a, rest, pat, o, 0);
    }
  }

  /** Two different brace-free names differ before either placeholder closes. */
  lemma HoleMismatchAtStart(j: string, k: string, rest: string)
    requires BraceFree(j) && BraceFree(k) && j != k
    ensures !OccursAt(Placeholder(j) + rest, Placeholder(k), 0)
  {
    var a := Placeholder(j);
    var pat := Placeholder(k);
    PlaceholderChars(j);
    PlaceholderChars(k);
    if |k| < |j| {
      assert a[|k| + 2] == j[|k|];
      MismatchIn(a, rest, pat, 0, |k| + 2);
    } else if |k| > |j| {
      assert pat[|j| + 2] == k[|j|];
      MismatchIn(a, rest, pat, 0, |j| + 2);
    } else {
      var m :| 0 <= m < |j| && j[m] != k[m];
      NamesDifferAt(j, k, rest, m);
    }
  }

  lemma NamesDifferAt(j: string, k: string, rest: string, m: int)
    requires 0 <= m < |j| == |k| && j[m] != k[m]
    ensures !OccursAt(Placeholder(j) + rest, Placeholder(k), 0)
  {
    var a := Placeholder(j);
    var pat := Placeholder(k);
    assert a[m + 2] == j[m];
    assert pat[m + 2] == k[m];
    MismatchIn(a, rest, pat, 0, m + 2);
  }

  /**
   * `replace('{{k}}', v)` on the rendered content is the rendering of the
   * pieces with the first `Hole(k)` filled, when `v` has no `$` for
   * `replace` to expand.
   */
  lemma {:induction false} ReplaceRendered(ps: seq<Piece>, k: string, v: string)
    requires WellFormed(ps) && BraceFree(k) && '$' !in v
    ensures ReplaceFirst(Render(ps), Placeholder(k), v) == Render(FillFirst(ps, k, v))
  {
    var pat := Placeholder(k);
    if |ps| == 0 {
      assert IndexOf("", pat).None?;
    } else {
      WellFormedTail(ps);
      var rest := Render(ps[1..]);
      var r := FillFirst(ps, k, v);
      if ps[0] == Hole(k) {
        ReplaceAtStart(pat, rest, v);
        assert r[1..] == ps[1..];
      } else {
        NoStartIn(ps[0], rest, k);
        ReplaceSkip(PieceText(ps[0]), rest, pat, v);
        ReplaceRendered(ps[1..], k, v);
        assert r[1..] == FillFirst(ps[1..], k, v);
      }
    }
  }

  /** The rendered content contains `{{k}}` exactly when some piece is `Hole(k)`. */
  lemma {:induction false} RenderIncludes(ps: seq<Piece>, k: string)
    requires WellFormed(ps) && BraceFree(k)
    ensures Includes(Render(ps), Placeholder(k)) <==> k in Holes(ps)
  {
    var pat := Placeholder(k);
    if |ps| == 0 {
      assert IndexOf("", pat).None?;
    } else {
      WellFormedTail(ps);
      var rest := Render(ps[1..]);
      RenderIncludes(ps[1..], k);
      if ps[0] == Hole(k) {
        IncludesMiddle("", pat, rest);
        assert "" + pat + rest == Render(ps);
      } else {
        NoStartIn(ps[0], rest, k);
        IndexSkip(PieceText(ps[0]), rest, pat);
        assert k in Holes(ps) <==> k in Holes(ps[1..]);
      }
    }
  }

  // ---------------------------------------------------------------------
  // Substitution on content strings
  // ---------------------------------------------------------------------

  /** `content.replace('{{key}}', value)`. */
  function Fill(content: string, key: string, value: string): string
  {
    ReplaceFirst(content, Placeholder(key), value)
  }

  /**
   * Content without the placeholder comes back unchanged; otherwise a value
   * without `$` takes the place of the first placeholder as it is.
   */
  lemma FillReplaces(content: string, key: string, value: string)
    ensures !Includes(content, Placeholder(key)) ==> Fill(content, key, value) == content
    ensures Includes(content, Placeholder(key)) && '$' !in value ==>
      var i := IndexOf(content, Placeholder(key)).value;
      && i + |Placeholder(key)| <= |content|
      && Fill(content, key, value) == content[..i] + value + content[i + |Placeholder(key)|..]
  {
    if Includes(content, Placeholder(key)) && '$' !in value {
      ReplacePlainAt(content, Placeholder(key), value, IndexOf(content, Placeholder(key)).value);
    }
  }

  /** One `replace` per entry, in iteration order (the newsletter's loop). */
  function FillEach(content: string, entries: seq<(string, string)>): string
    decreases |entries|
  {
    if |entries| == 0 then content
    else FillEach(Fill(content, entries[0].0, entries[0].1), entries[1..])
  }

  /** Text without `{` holds no placeholder. */
  lemma NoPlaceholderWithoutBrace(content: string, key: string)
    requires NoOpenBrace(content)
    ensures !Includes(content, Placeholder(key))
  {
    var p := Placeholder(key);
    forall i | 0 <= i && i + |p| <= |content| ensures !OccursAt(content, p, i) {
      assert content[i..i + |p|][0] == content[i] != '{' == p[0];
    }
    IncludesIff(content, p);
  }

  /** Content with no `{` has no placeholder to fill: every entry leaves it unchanged. */
  lemma {:induction false} FillEachNoBrace(content: string, entries: seq<(string, string)>)
    requires NoOpenBrace(content)
    ensures FillEach(content, entries) == content
    decreases |entries|
  {
    if |entries| > 0 {
      NoPlaceholderWithoutBrace(content, entries[0].0);
      FillEachNoBrace(content, entries[1..]);
    }
  }

  function FillEachPieces(ps: seq<Piece>, entries: seq<(string, string)>): (r: seq<Piece>)
    ensures multiset(Holes(r)) == multiset(Holes(ps)) - multiset(Keys(entries))
    decreases |entries|
  {
    if |entries| == 0 then ps
    else
      var (k, v) := entries[0];
      var r := FillEachPieces(FillFirst(ps, k, v), entries[1..]);
      MinusMinus(multiset(Holes(ps)), multiset{k}, multiset(Keys(entries[1..])));
      r
  }

  lemma MinusMinus<T>(a: multiset<T>, b: multiset<T>, c: multiset<T>)
    ensures (a - b) - c == a - (b + c)
  {
    assert forall x :: ((a - b) - c)[x] == (a - (b + c))[x];
  }

  function Keys(entries: seq<(string, string)>): (r: seq<string>)
    ensures |r| == |entries|
    ensures forall i :: 0 <= i < |entries| ==> r[i] == entries[i].0
  {
    if |entries| == 0 then [] else [entries[0].0] + Keys(entries[1..])
  }

  /** Keys are brace-free names and no value can open a placeholder. */
  predicate PlainEntries(entries: seq<(string, string)>)
  {
    forall i :: 0 <= i < |entries| ==> BraceFree(entries[i].0) && NoOpenBrace(entries[i].1)
  }

  /** No value has a `$`, so each `replace` inserts its value as written. */
  predicate LiteralValues(entries: seq<(string, string)>)
  {
    forall i :: 0 <= i < |entries| ==> '$' !in entries[i].1
  }

  lemma {:induction false} FillEachRendered(ps: seq<Piece>, entries: seq<(string, string)>)
    requires WellFormed(ps) && PlainEntries(entries) && LiteralValues(entries)
    ensures FillEach(Render(ps), entries) == Render(FillEachPieces(ps, entries))
    ensures WellFormed(FillEachPieces(ps, entries))
    decreases |entries|
  {
    if |entries| != 0 {
      var (k, v) := entries[0];
      ReplaceRendered(ps, k, v);
      assert PlainEntries(entries[1..]) && LiteralValues(entries[1..]) by {
        assert forall i :: 0 <= i < |entries| - 1 ==> entries[1..][i] == entries[i + 1];
      }
      FillFirstWellFormed(ps, k, v);
      FillEachRendered(FillFirst(ps, k, v), entries[1..]);
    }
  }

  /**
   * After the entries are substituted, `{{k}}` is still in the content
   * exactly when the pieces held more `Hole(k)` than there are entries for `k`.
   */
  lemma FillEachLeaves(ps: seq<Piece>, entries: seq<(string, string)>, k: string)
    requires WellFormed(ps) && PlainEntries(entries) && LiteralValues(entries) && BraceFree(k)
    ensures Includes(FillEach(Render(ps), entries), Placeholder(k))
      <==> multiset(Holes(ps))[k] > multiset(Keys(entries))[k]
  {
    FillEachRendered(ps, entries);
    var r := FillEachPieces(ps, entries);
    RenderIncludes(r, k);
    assert k in Holes(r) <==> multiset(Holes(r))[k] > 0;
  }

  /**
   * `replace` with a string pattern fills only the first placeholder: with
   * two `{{k}}` in the content, one is still there afterwards, whatever the
   * value.
   */
  lemma OnlyFirstFilled(ps: seq<Piece>, k: string, v: string)
    requires WellFormed(ps) && BraceFree(k)
    requires multiset(Holes(ps))[k] >= 2
    ensures Includes(Fill(Render(ps), k, v), Placeholder(k))
  {
    var j := AfterFirstOccurs(ps, k);
    ReplaceKeepsLater(Render(ps), Placeholder(k), v, j);
  }

  /** With two `{{k}}` in the content, another one starts after the first ends. */
  lemma {:induction false} AfterFirstOccurs(ps: seq<Piece>, k: string) returns (j: int)
    requires WellFormed(ps) && BraceFree(k) && multiset(Holes(ps))[k] >= 2
    ensures IndexOf(Render(ps), Placeholder(k)).Some?
    ensures j >= IndexOf(Render(ps), Placeholder(k)).value + |Placeholder(k)|
    ensures OccursAt(Render(ps), Placeholder(k), j)
  {
    var pat := Placeholder(k);
    var a, rest := PieceText(ps[0]), Render(ps[1..]);
    WellFormedTail(ps);
    assert Render(ps) == a + rest;
    assert Holes(ps) == (if ps[0].Hole? then [ps[0].name] else []) + Holes(ps[1..]);
    if ps[0] == Hole(k) {
      RenderIncludes(ps[1..], k);
      j := AfterLeadingMatch(rest, pat);
    } else {
      assert multiset(Holes(ps[1..]))[k] >= 2;
      var m := AfterFirstOccurs(ps[1..], k);
      NoStartIn(ps[0], rest, k);
      j := AfterLeadingText(a, rest, pat, m);
    }
  }

  /** A text that starts with `pat` and holds it again: the first is at 0 and another follows it. */
  lemma AfterLeadingMatch(rest: string, pat: string) returns (j: int)
    requires Includes(rest, pat)
    ensures IndexOf(pat + rest, pat) == Some(0)
    ensures j >= |pat| && OccursAt(pat + rest, pat, j)
  {
    var t := pat + rest;
    assert t[0..|pat|] == pat;
    IndexOfIs(t, pat, 0);
    IncludesIff(rest, pat);
    var m :| OccursAt(rest, pat, m);
    OccursShift(pat, rest, pat, m);
    j := |pat| + m;
  }

  /** Leading text in which no `pat` starts shifts the first occurrence and a later one by its length. */
  lemma AfterLeadingText(a: string, rest: string, pat: string, m: int) returns (j: int)
    requires forall o :: 0 <= o < |a| ==> !OccursAt(a + rest, pat, o)
    requires IndexOf(rest, pat).Some?
    requires m >= IndexOf(rest, pat).value + |pat| && OccursAt(rest, pat, m)
    ensures IndexOf(a + rest, pat).Some?
    ensures j >= IndexOf(a + rest, pat).value + |pat|
    ensures OccursAt(a + rest, pat, j)
  {
    IndexSkip(a, rest, pat);
    OccursShift(a, rest, pat, m);
    j := |a| + m;
  }

  // ---------------------------------------------------------------------
  // The templates
  // ---------------------------------------------------------------------

  /**
   * The content `lead {{v1}} p1 {{v2}} p2 …`: the lead prose, then each
   * placeholder followed by the prose after it.
   */
  function Interleave(lead: string, parts: seq<(string, string)>): (r: seq<Piece>)
    ensures |r| == 2 * |parts| + 1
    decreases |parts|
  {
    if |parts| == 0 then [Prose(lead)]
    else [Prose(lead), Hole(parts[0].0)] + Interleave(parts[0].1, parts[1..])
  }

  /** The placeholders of an interleaved body are the part names, in order. */
  lemma {:induction false} InterleaveHoles(lead: string, parts: seq<(string, string)>)
    ensures Holes(Interleave(lead, parts)) == Keys(parts)
    decreases |parts|
  {
    if |parts| > 0 {
      var r := Interleave(lead, parts);
      InterleaveHoles(parts[0].1, parts[1..]);
      assert r[1..][1..] == Interleave(parts[0].1, parts[1..]);
      assert Keys(parts) == [parts[0].0] + Keys(parts[1..]);
    }
  }

  /** Plain names and prose give well-formed content. */
  lemma {:induction false} InterleaveWellFormed(lead: string, parts: seq<(string, string)>)
    requires NoOpenBrace(lead) && PlainEntries(parts)
    ensures WellFormed(Interleave(lead, parts))
    decreases |parts|
  {
    if |parts| > 0 {
      var tail := Interleave(parts[0].1, parts[1..]);
      assert PlainEntries(parts[1..]) by {
        assert forall i :: 0 <= i < |parts| - 1 ==> parts[1..][i] == parts[i + 1];
      }
      InterleaveWellFormed(parts[0].1, parts[1..]);
      assert forall i :: 2 <= i < 2 * |parts| + 1 ==> Interleave(lead, parts)[i] == tail[i - 2];
    }
  }

  /**
   * An email template. Its content is `lead`, then each variable's
   * placeholder followed by the prose after it; the prose is abridged.
   */
  datatype Template = Template(name: string, subject: string, lead: string,
                               parts: seq<(string, string)>, variables: seq<string>)
  {
    function Body(): seq<Piece> { Interleave(lead, parts) }

    function Content(): string { Render(Body()) }
  }

  const WelcomeSeries1 := Template(
    "welcome_series_1",
    "Welcome to TradeFlows Pro! \U{1F680} Start Your Trading Journey",
    "\nHi ",
    [("firstName", ",\n…\nReady to dive in? Visit your dashboard: "),
     ("dashboardUrl", "\n…\n")],
    ["firstName", "dashboardUrl"])

  const WelcomeSeries2 := Template(
    "welcome_series_2",
    "\U{1F4A1} 3 Strategies Every Trader Should Know",
    "\nHi ",
    [("firstName", ",\n…\nTry them now: "),
     ("strategiesUrl", "\n…\n")],
    ["firstName", "strategiesUrl"])

  const TrialReminder := Template(
    "trial_reminder",
    "⏰ Your Premium Trial Ends in 3 Days",
    "\nHi ",
    [("firstName", ",\n…\n\U{1F4CA} "),
     ("postsViewed", " strategies tested\n\U{1F4BC} "),
     ("portfoliosCreated", " portfolios created\n\U{1F514} "),
     ("alertsSet", " alerts configured\n…\nUpgrade now and save: "),
     ("upgradeUrl", "\n…\n")],
    ["firstName", "postsViewed", "portfoliosCreated", "alertsSet", "upgradeUrl"])

  const FeatureAnnouncement := Template(
    "feature_announcement",
    "\U{1F389} New Feature: AI Strategy Builder",
    "\nHi ",
    [("firstName", ",\n…\nWatch the tutorial: "),
     ("tutorialUrl", "\nStart building: "),
     ("builderUrl", "\n…\n")],
    ["firstName", "tutorialUrl", "builderUrl"])

  const Reengagement := Template(
    "reengagement",
    "We Miss You at TradeFlows Pro! \U{1F499}",
    "\nHi ",
    [("firstName", ",\n…\n- Your "),
     ("watchlistCount", " watchlists\n…\nCome back and see what's new: "),
     ("loginUrl", "\n…\n")],
    ["firstName", "watchlistCount", "loginUrl"])

  const EducationalNewsletter := Template(
    "educational_newsletter",
    "\U{1F4DA} This Week in Trading: Market Insights & Tips",
    "\nHi ",
    [("firstName", ",\n…\n"),
     ("marketSummary", "\n…\n"),
     ("topStrategy", " - Try it on your dashboard!\n… an average "),
     ("avgGain", "% better organization …\n" + "\"Mastering AI Trading Strategies\" - "),
     ("webinarDate", "\nRegister: "),
     ("webinarUrl", "\n…\n")],
    ["firstName", "marketSummary", "topStrategy", "avgGain", "webinarDate", "webinarUrl"])

  /** `getTemplates()`, in its order. */
  const Templates: seq<Template> :=
    [WelcomeSeries1, WelcomeSeries2, TrialReminder, FeatureAnnouncement, Reengagement, EducationalNewsletter]

  /**
   * A template is consistent when its content is well formed and its
   * placeholders are exactly its declared variables, each once, in order.
   */
  predicate Consistent(t: Template)
  {
    && WellFormed(t.Body())
    && Holes(t.Body()) == t.variables
    && Distinct(t.variables)
    && forall i :: 0 <= i < |t.variables| ==> BraceFree(t.variables[i])
  }

  /** The parts of a template are plain and name its variables. */
  predicate Plain(t: Template)
  {
    NoOpenBrace(t.lead) && PlainEntries(t.parts) && Keys(t.parts) == t.variables && Distinct(t.variables)
  }

  /** No template declares a variable twice. */
  lemma VariablesDistinct()
    ensures Distinct(WelcomeSeries1.variables) && Distinct(WelcomeSeries2.variables)
    ensures Distinct(TrialReminder.variables) && Distinct(FeatureAnnouncement.variables)
    ensures Distinct(Reengagement.variables) && Distinct(EducationalNewsletter.variables)
  {
    TrialReminderDistinct();
    NewsletterDistinct();
  }

  lemma TrialReminderDistinct()
    ensures Distinct(TrialReminder.variables)
  {
  }

  lemma NewsletterDistinct()
    ensures Distinct(EducationalNewsletter.variables)
  {
  }

  lemma KeysAre(parts: seq<(string, string)>, names: seq<string>)
    requires |parts| == |names| && forall i :: 0 <= i < |parts| ==> parts[i].0 == names[i]
    ensures Keys(parts) == names
  {
  }

  lemma PlainConsistent(t: Template)
    requires Plain(t)
    ensures Consistent(t)
  {
    InterleaveHoles(t.lead, t.parts);
    InterleaveWellFormed(t.lead, t.parts);
  }

  lemma WelcomeSeries1Part(i: int)
    requires 0 <= i < |WelcomeSeries1.parts|
    ensures BraceFree(WelcomeSeries1.parts[i].0) && NoOpenBrace(WelcomeSeries1.parts[i].1)
  {
    if i == 0 { }
  }

  lemma WelcomeSeries1Consistent()
    ensures Consistent(WelcomeSeries1)
  {
    forall i | 0 <= i < |WelcomeSeries1.parts|
      ensures BraceFree(WelcomeSeries1.parts[i].0) && NoOpenBrace(WelcomeSeries1.parts[i].1)
    {
      WelcomeSeries1Part(i);
    }
    KeysAre(WelcomeSeries1.parts, WelcomeSeries1.variables);
    VariablesDistinct();
    PlainConsistent(WelcomeSeries1);
  }

  lemma WelcomeSeries2Part(i: int)
    requires 0 <= i < |WelcomeSeries2.parts|
    ensures BraceFree(WelcomeSeries2.parts[i].0) && NoOpenBrace(WelcomeSeries2.parts[i].1)
  {
    if i == 0 { }
  }

  lemma WelcomeSeries2Consistent()
    ensures Consistent(WelcomeSeries2)
  {
    forall i | 0 <= i < |WelcomeSeries2.parts|
      ensures BraceFree(WelcomeSeries2.parts[i].0) && NoOpenBrace(WelcomeSeries2.parts[i].1)
    {
      WelcomeSeries2Part(i);
    }
    KeysAre(WelcomeSeries2.parts, WelcomeSeries2.variables);
    VariablesDistinct();
    PlainConsistent(WelcomeSeries2);
  }

  lemma TrialReminderPart(i: int)
    requires 0 <= i < |TrialReminder.parts|
    ensures BraceFree(TrialReminder.parts[i].0) && NoOpenBrace(TrialReminder.parts[i].1)
  {
    if i < 2 { TrialReminderEarlyPart(i); } else { TrialReminderLatePart(i); }
  }

  lemma TrialReminderEarlyPart(i: int)
    requires 0 <= i < 2
    ensures BraceFree(TrialReminder.parts[i].0) && NoOpenBrace(TrialReminder.parts[i].1)
  {
    if i == 0 { }
  }

  lemma TrialReminderLatePart(i: int)
    requires 2 <= i < |TrialReminder.parts|
    ensures BraceFree(TrialReminder.parts[i].0) && NoOpenBrace(TrialReminder.parts[i].1)
  {
    if i == 2 { }
    else if i == 3 { }
  }

  lemma TrialReminderConsistent()
    ensures Consistent(TrialReminder)
  {
    forall i | 0 <= i < |TrialReminder.parts|
      ensures BraceFree(TrialReminder.parts[i].0) && NoOpenBrace(TrialReminder.parts[i].1)
    {
      TrialReminderPart(i);
    }
    KeysAre(TrialReminder.parts, TrialReminder.variables);
    VariablesDistinct();
    PlainConsistent(TrialReminder);
  }

  lemma FeatureAnnouncementPart(i: int)
    requires 0 <= i < |FeatureAnnouncement.parts|
    ensures BraceFree(FeatureAnnouncement.parts[i].0) && NoOpenBrace(FeatureAnnouncement.parts[i].1)
  {
    if i == 0 { }
    else if i == 1 { }
  }

  lemma FeatureAnnouncementConsistent()
    ensures Consistent(FeatureAnnouncement)
  {
    forall i | 0 <= i < |FeatureAnnouncement.parts|
      ensures BraceFree(FeatureAnnouncement.parts[i].0) && NoOpenBrace(FeatureAnnouncement.parts[i].1)
    {
      FeatureAnnouncementPart(i);
    }
    KeysAre(FeatureAnnouncement.parts, FeatureAnnouncement.variables);
    VariablesDistinct();
    PlainConsistent(FeatureAnnouncement);
  }

  lemma ReengagementPart(i: int)
    requires 0 <= i < |Reengagement.parts|
    ensures BraceFree(Reengagement.parts[i].0) && NoOpenBrace(Reengagement.parts[i].1)
  {
    if i == 0 { }
    else if i == 1 { }
  }

  lemma ReengagementConsistent()
    ensures Consistent(Reengagement)
  {
    forall i | 0 <= i < |Reengagement.parts|
      ensures BraceFree(Reengagement.parts[i].0) && NoOpenBrace(Reengagement.parts[i].1)
    {
      ReengagementPart(i);
    }
    KeysAre(Reengagement.parts, Reengagement.variables);
    VariablesDistinct();
    PlainConsistent(Reengagement);
  }

  lemma EducationalNewsletterPart(i: int)
    requires 0 <= i < |EducationalNewsletter.parts|
    ensures BraceFree(EducationalNewsletter.parts[i].0) && NoOpenBrace(EducationalNewsletter.parts[i].1)
  {
    if i < 3 { EducationalNewsletterEarlyPart(i); } else { EducationalNewsletterLatePart(i); }
  }

  lemma EducationalNewsletterEarlyPart(i: int)
    requires 0 <= i < 3
    ensures BraceFree(EducationalNewsletter.parts[i].0) && NoOpenBrace(EducationalNewsletter.parts[i].1)
  {
    if i == 0 { }
    else if i == 1 { }
  }

  lemma EducationalNewsletterLatePart(i: int)
    requires 3 <= i < |EducationalNewsletter.parts|
    ensures BraceFree(EducationalNewsletter.parts[i].0) && NoOpenBrace(EducationalNewsletter.parts[i].1)
  {
    if i == 3 { NoOpenBraceConcat("% better organization …\n", "\"Mastering AI Trading Strategies\" - "); }
  }

  lemma EducationalNewsletterConsistent()
    ensures Consistent(EducationalNewsletter)
  {
    forall i | 0 <= i < |EducationalNewsletter.parts|
      ensures BraceFree(EducationalNewsletter.parts[i].0) && NoOpenBrace(EducationalNewsletter.parts[i].1)
    {
      EducationalNewsletterPart(i);
    }
    KeysAre(EducationalNewsletter.parts, EducationalNewsletter.variables);
    VariablesDistinct();
    PlainConsistent(EducationalNewsletter);
  }

  lemma TemplatesConsistent()
    ensures forall i :: 0 <= i < |Templates| ==> Consistent(Templates[i])
  {
    WelcomeSeries1Consistent();
    WelcomeSeries2Consistent();
    TrialReminderConsistent();
    FeatureAnnouncementConsistent();
    ReengagementConsistent();
    EducationalNewsletterConsistent();
    forall i | 0 <= i < |Templates|
      ensures Consistent(Templates[i])
    {
      TemplateIs(i);
    }
  }

  lemma TemplateIs(i: int)
    requires 0 <= i < |Templates|
    ensures Templates[i] in {WelcomeSeries1, WelcomeSeries2, TrialReminder, FeatureAnnouncement, Reengagement, EducationalNewsletter}
  {
  }

  /**
   * Every declared variable `v` of every template occurs as `{{v}}` in the
   * template's content, and no other placeholder does.
   */
  lemma DeclaredVariablesOccur(i: int, k: string)
    requires 0 <= i < |Templates| && BraceFree(k)
    ensures Includes(Templates[i].Content(), Placeholder(k)) <==> k in Templates[i].variables
  {
    TemplatesConsistent();
    var t := Templates[i];
    RenderIncludes(t.Body(), k);
  }

  /** `templates.find(t => t.name === name)`. */
  function FindTemplate(ts: seq<Template>, name: string): (r: Option<Template>)
    ensures r.Some? ==> r.value in ts && r.value.name == name
    ensures r.None? ==> forall i :: 0 <= i < |ts| ==> ts[i].name != name
  {
    if |ts| == 0 then None
    else if ts[0].name == name then Some(ts[0])
    else FindTemplate(ts[1..], name)
  }

  /** `find` returns the first template carrying the name. */
  lemma {:induction false} FindFirst(ts: seq<Template>, name: string, i: int)
    requires 0 <= i < |ts| && ts[i].name == name
    requires forall j :: 0 <= j < i ==> ts[j].name != name
    ensures FindTemplate(ts, name) == Some(ts[i])
  {
    if i > 0 {
      FindFirst(ts[1..], name, i - 1);
    }
  }

  lemma NamesDistinct()
    ensures forall i, j :: 0 <= i < j < |Templates| ==> Templates[i].name != Templates[j].name
  {
  }

  /** Looking a template up by its own name finds it. */
  lemma FindByName(i: int)
    requires 0 <= i < |Templates|
    ensures FindTemplate(Templates, Templates[i].name) == Some(Templates[i])
  {
    NamesDistinct();
    FindFirst(Templates, Templates[i].name, i);
  }

  // ---------------------------------------------------------------------
  // Campaigns
  // ---------------------------------------------------------------------

  datatype Status = Pending | Sent | Failed

  /** A row of `email_campaigns`; times are minutes. */
  datatype Campaign = Campaign(
    name: string,
    subject: string,
    content: string,
    recipients: seq<string>,
    scheduledAt: int,
    status: Status,
    totalSent: nat,
    sentAt: Option<int>)

  /** The `email_campaigns` table: rows by id, and the next AUTOINCREMENT id. */
  datatype Campaigns = Campaigns(rows: map<int, Campaign>, nextId: int)

  predicate ValidTable(db: Campaigns)
  {
    db.nextId >= 1 && forall id :: id in db.rows ==> 1 <= id < db.nextId
  }

  const NoCampaigns := Campaigns(map[], 1)

  /**
   * `createCampaign`: a new row, always `pending`, with `total_sent` 0 and no
   * send time; the id returned is the new row's.
   */
  function CreateCampaign(db: Campaigns, name: string, subject: string, content: string,
                          recipients: seq<string>, at: int): (r: (Campaigns, int))
    requires ValidTable(db)
    ensures ValidTable(r.0) && r.1 >= 1
    ensures r.1 !in db.rows && r.1 in r.0.rows
    ensures r.0.rows[r.1] == Campaign(name, subject, content, recipients, at, Pending, 0, None)
    ensures r.0.rows.Keys == db.rows.Keys + {r.1}
    ensures forall id :: id in db.rows ==> r.0.rows[id] == db.rows[id]
  {
    var id := db.nextId;
    (Campaigns(db.rows[id := Campaign(name, subject, content, recipients, at, Pending, 0, None)], id + 1), id)
  }

  /**
   * `sendEmailViaSendGrid`: false without a network call when the API key is
   * empty; otherwise whether the request went through, which the caller supplies.
   */
  function SendEmail(apiKey: string, delivered: bool): (sent: bool)
    ensures sent ==> |apiKey| > 0 && delivered
    ensures |apiKey| > 0 && delivered ==> sent
  {
    if |apiKey| == 0 then false else delivered
  }

  /** The network's answer for the `i`-th recipient; a missing answer is a failure. */
  function Outcome(delivered: seq<bool>, i: int): bool
  {
    0 <= i < |delivered| && delivered[i]
  }

  /** How many of the first `n` sends succeed. */
  function Successes(apiKey: string, delivered: seq<bool>, n: nat): (c: nat)
    ensures c <= n
  {
    if n == 0 then 0
    else Successes(apiKey, delivered, n - 1) + (if SendEmail(apiKey, Outcome(delivered, n - 1)) then 1 else 0)
  }

  lemma {:induction false} NoKeyNoSuccess(delivered: seq<bool>, n: nat)
    ensures Successes("", delivered, n) == 0
  {
    if n > 0 {
      NoKeyNoSuccess(delivered, n - 1);
    }
  }

  /** With a key, the successes are the requests the network accepted. */
  lemma {:induction false} SuccessesCount(apiKey: string, delivered: seq<bool>, n: nat)
    requires |apiKey| > 0 && n <= |delivered|
    ensures Successes(apiKey, delivered, n) == |set i | 0 <= i < n && delivered[i]|
  {
    if n > 0 {
      SuccessesCount(apiKey, delivered, n - 1);
      var prev := set i | 0 <= i < n - 1 && delivered[i];
      var all := set i | 0 <= i < n && delivered[i];
      if delivered[n - 1] {
        assert all == prev + {n - 1};
      } else {
        assert all == prev;
      }
    }
  }

  /**
   * `sendCampaign`: for a missing campaign, nothing changes and the result
   * is zero sent, zero failed. Otherwise every recipient is tried once,
   * counted as sent or failed, and the row becomes `sent` with `total_sent`
   * the sent count, even when every send failed.
   */
  method SendCampaign(db: Campaigns, id: int, apiKey: string, delivered: seq<bool>, now: int)
    returns (r: Campaigns, sent: nat, failed: nat)
    ensures id !in db.rows ==> r == db && sent == 0 && failed == 0
    ensures id in db.rows ==>
      && sent + failed == |db.rows[id].recipients|
      && sent == Successes(apiKey, delivered, |db.rows[id].recipients|)
      && r.nextId == db.nextId
      && r.rows.Keys == db.rows.Keys
      && r.rows[id] == db.rows[id].(status := Sent, totalSent := sent, sentAt := Some(now))
      && forall j :: j in db.rows && j != id ==> r.rows[j] == db.rows[j]
    ensures |apiKey| == 0 ==> sent == 0
  {
    if id !in db.rows {
      return db, 0, 0;
    }
    var campaign := db.rows[id];
    var recipients := campaign.recipients;
    sent, failed := 0, 0;
    var i := 0;
    while i < |recipients|
      invariant 0 <= i <= |recipients|
      invariant sent == Successes(apiKey, delivered, i)
      invariant sent + failed == i
    {
      var success := SendEmail(apiKey, Outcome(delivered, i));
      if success {
        sent := sent + 1;
      } else {
        failed := failed + 1;
      }
      i := i + 1;
    }
    if |apiKey| == 0 {
      NoKeyNoSuccess(delivered, |recipients|);
    }
    r := db.(rows := db.rows[id := campaign.(status := Sent, totalSent := sent, sentAt := Some(now))]);
  }

  // ---------------------------------------------------------------------
  // Welcome drip and newsletter
  // ---------------------------------------------------------------------

  /** The day-1 welcome content: first name, then the dashboard link. */
  function Day1Content(t: Template, firstName: string, baseUrl: string): string
  {
    Fill(Fill(t.Content(), "firstName", firstName), "dashboardUrl", baseUrl + "/dashboard")
  }

  /** The day-2 welcome content: first name, then the strategies link. */
  function Day2Content(t: Template, firstName: string, baseUrl: string): string
  {
    Fill(Fill(t.Content(), "firstName", firstName), "strategiesUrl", baseUrl + "/strategies")
  }

  /**
   * `setupWelcomeDripCampaign`: a day-1 campaign scheduled now and a day-2
   * campaign one day later, each to the user alone, each only when its
   * template exists.
   */
  function SetupWelcomeDrip(db: Campaigns, userEmail: string, firstName: string,
                            baseUrl: string, now: int): (r: Campaigns)
    requires ValidTable(db)
    ensures ValidTable(r)
    ensures forall id :: id in db.rows ==> id in r.rows && r.rows[id] == db.rows[id]
  {
    Drip(db, FindTemplate(Templates, "welcome_series_1"), FindTemplate(Templates, "welcome_series_2"),
         userEmail, firstName, baseUrl, now)
  }

  /** The drip once the two templates have been looked up. */
  function Drip(db: Campaigns, day1: Option<Template>, day2: Option<Template>, userEmail: string,
                firstName: string, baseUrl: string, now: int): (r: Campaigns)
    requires ValidTable(db)
    ensures ValidTable(r)
    ensures forall id :: id in db.rows ==> id in r.rows && r.rows[id] == db.rows[id]
  {
    var db1 := match day1
      case Some(t) =>
        CreateCampaign(db, "Welcome Day 1 - " + userEmail, t.subject,
                       Day1Content(t, firstName, baseUrl), [userEmail], now).0
      case None => db;
    match day2
    case Some(t) =>
      CreateCampaign(db1, "Welcome Day 2 - " + userEmail, t.subject,
                     Day2Content(t, firstName, baseUrl), [userEmail], now + MinutesPerDay).0
    case None => db1
  }

  lemma WelcomeTemplatesFound()
    ensures FindTemplate(Templates, "welcome_series_1") == Some(WelcomeSeries1)
    ensures FindTemplate(Templates, "welcome_series_2") == Some(WelcomeSeries2)
  {
    FindFirst(Templates, "welcome_series_1", 0);
    FindFirst(Templates, "welcome_series_2", 1);
  }

  /**
   * Both welcome templates exist, so the drip adds exactly two pending
   * campaigns to the user, the second one day after the first.
   */
  lemma WelcomeDripCreatesTwo(db: Campaigns, userEmail: string, firstName: string, baseUrl: string, now: int)
    requires ValidTable(db)
    ensures var r := SetupWelcomeDrip(db, userEmail, firstName, baseUrl, now);
      && r.rows.Keys == db.rows.Keys + {db.nextId, db.nextId + 1}
      && r.rows[db.nextId] == Campaign("Welcome Day 1 - " + userEmail, WelcomeSeries1.subject,
           Day1Content(WelcomeSeries1, firstName, baseUrl), [userEmail], now, Pending, 0, None)
      && r.rows[db.nextId + 1] == Campaign("Welcome Day 2 - " + userEmail, WelcomeSeries2.subject,
           Day2Content(WelcomeSeries2, firstName, baseUrl), [userEmail], now + MinutesPerDay, Pending, 0, None)
  {
    WelcomeTemplatesFound();
    DripCreatesTwo(db, WelcomeSeries1, WelcomeSeries2, userEmail, firstName, baseUrl, now);
  }

  lemma DripCreatesTwo(db: Campaigns, t1: Template, t2: Template, userEmail: string,
                       firstName: string, baseUrl: string, now: int)
    requires ValidTable(db)
    ensures var r := Drip(db, Some(t1), Some(t2), userEmail, firstName, baseUrl, now);
      && r.rows.Keys == db.rows.Keys + {db.nextId, db.nextId + 1}
      && r.rows[db.nextId] == Campaign("Welcome Day 1 - " + userEmail, t1.subject,
           Day1Content(t1, firstName, baseUrl), [userEmail], now, Pending, 0, None)
      && r.rows[db.nextId + 1] == Campaign("Welcome Day 2 - " + userEmail, t2.subject,
           Day2Content(t2, firstName, baseUrl), [userEmail], now + MinutesPerDay, Pending, 0, None)
  {
    var c1 := CreateCampaign(db, "Welcome Day 1 - " + userEmail, t1.subject,
                             Day1Content(t1, firstName, baseUrl), [userEmail], now);
    var c2 := CreateCampaign(c1.0, "Welcome Day 2 - " + userEmail, t2.subject,
                             Day2Content(t2, firstName, baseUrl), [userEmail], now + MinutesPerDay);
    assert Drip(db, Some(t1), Some(t2), userEmail, firstName, baseUrl, now) == c2.0;
    SetAddTwo(db.rows.Keys, c1.0.rows.Keys, c2.0.rows.Keys, db.nextId, db.nextId + 1);
  }

  lemma SetAddTwo<T>(a: set<T>, b: set<T>, c: set<T>, x: T, y: T)
    requires b == a + {x} && c == b + {y}
    ensures c == a + {x, y}
  {
  }

  /**
   * With a name and a base URL that cannot open a placeholder and have no
   * `$` for `replace` to expand, the welcome emails carry no placeholder at all: each template's two variables are
   * its only ones and each is filled.
   */
  lemma WelcomeContentFilled(firstName: string, baseUrl: string, k: string)
    requires NoOpenBrace(firstName) && NoOpenBrace(baseUrl) && BraceFree(k)
    requires '$' !in firstName && '$' !in baseUrl
    ensures !Includes(Day1Content(WelcomeSeries1, firstName, baseUrl), Placeholder(k))
    ensures !Includes(Day2Content(WelcomeSeries2, firstName, baseUrl), Placeholder(k))
  {
    WelcomeDay1Filled(firstName, baseUrl, k);
    WelcomeDay2Filled(firstName, baseUrl, k);
  }

  lemma WelcomeDay1Filled(firstName: string, baseUrl: string, k: string)
    requires NoOpenBrace(firstName) && NoOpenBrace(baseUrl) && BraceFree(k)
    requires '$' !in firstName && '$' !in baseUrl
    ensures !Includes(Day1Content(WelcomeSeries1, firstName, baseUrl), Placeholder(k))
  {
    WelcomeSeries1Consistent();
    LinkPlain(baseUrl, "/dashboard");
    BothFilled(WelcomeSeries1, ("firstName", firstName), ("dashboardUrl", baseUrl + "/dashboard"), k);
  }

  lemma WelcomeDay2Filled(firstName: string, baseUrl: string, k: string)
    requires NoOpenBrace(firstName) && NoOpenBrace(baseUrl) && BraceFree(k)
    requires '$' !in firstName && '$' !in baseUrl
    ensures !Includes(Day2Content(WelcomeSeries2, firstName, baseUrl), Placeholder(k))
  {
    WelcomeSeries2Consistent();
    LinkPlain(baseUrl, "/strategies");
    BothFilled(WelcomeSeries2, ("firstName", firstName), ("strategiesUrl", baseUrl + "/strategies"), k);
  }

  /** Filling both variables of a two-variable template leaves no placeholder. */
  lemma BothFilled(t: Template, e1: (string, string), e2: (string, string), k: string)
    requires Consistent(t) && t.variables == [e1.0, e2.0]
    requires NoOpenBrace(e1.1) && NoOpenBrace(e2.1) && BraceFree(k)
    requires '$' !in e1.1 && '$' !in e2.1
    ensures !Includes(Fill(Fill(t.Content(), e1.0, e1.1), e2.0, e2.1), Placeholder(k))
  {
    var es := [e1, e2];
    var c1 := Fill(t.Content(), e1.0, e1.1);
    assert es[1..] == [e2] && [e2][1..] == [];
    assert FillEach(c1, [e2]) == Fill(c1, e2.0, e2.1);
    assert FillEach(t.Content(), es) == FillEach(c1, [e2]);
    assert BraceFree(t.variables[0]) && BraceFree(t.variables[1]);
    assert LiteralValues(es);
    FillEachLeaves(t.Body(), es, k);
    assert Keys(es) == t.variables;
  }

  /**
   * `replace` expands `$&` to the placeholder it matched: with a first name
   * of `$&` the day-1 welcome email still shows `{{firstName}}`.
   */
  lemma WelcomeMatchTokenKeepsPlaceholder(baseUrl: string)
    requires NoOpenBrace(baseUrl) && '$' !in baseUrl
    ensures Includes(Day1Content(WelcomeSeries1, "$&", baseUrl), Placeholder("firstName"))
  {
    WelcomeSeries1Consistent();
    LinkPlain(baseUrl, "/dashboard");
    MatchTokenKeepsPlaceholder(WelcomeSeries1, baseUrl + "/dashboard");
  }

  lemma LinkPlain(baseUrl: string, path: string)
    requires NoOpenBrace(baseUrl) && '$' !in baseUrl
    requires NoOpenBrace(path) && '$' !in path
    ensures NoOpenBrace(baseUrl + path) && '$' !in baseUrl + path
  {
  }

  /**
   * In a two-variable template, a first value of `$&` puts the first
   * placeholder back, and filling the second leaves it in place.
   */
  lemma MatchTokenKeepsPlaceholder(t: Template, v: string)
    requires Consistent(t) && |t.variables| == 2
    requires NoOpenBrace(v) && '$' !in v
    ensures Includes(Fill(Fill(t.Content(), t.variables[0], "$&"), t.variables[1], v),
                     Placeholder(t.variables[0]))
  {
    var k1, k2 := t.variables[0], t.variables[1];
    ReplaceWithMatch(t.Content(), Placeholder(k1));
    assert Holes(t.Body()) == [k1, k2] && k1 != k2;
    SecondFillKeepsFirst(t.Body(), k1, k2, v);
  }

  /** Filling the second of two different placeholders keeps the first. */
  lemma SecondFillKeepsFirst(ps: seq<Piece>, k1: string, k2: string, v: string)
    requires WellFormed(ps) && Holes(ps) == [k1, k2] && k1 != k2
    requires BraceFree(k1) && BraceFree(k2) && NoOpenBrace(v) && '$' !in v
    ensures Includes(Fill(Render(ps), k2, v), Placeholder(k1))
  {
    ReplaceRendered(ps, k2, v);
    FillFirstWellFormed(ps, k2, v);
    var r := FillFirst(ps, k2, v);
    assert multiset(Holes(r))[k1] == 1;
    RenderIncludes(r, k1);
  }

  /** `sendNewsletter`'s content: the template with each supplied entry substituted. */
  function NewsletterContent(t: Template, customContent: Option<seq<(string, string)>>): string
  {
    match customContent
    case Some(entries) => FillEach(t.Content(), entries)
    case None => t.Content()
  }

  /**
   * The newsletter's placeholders: `{{k}}` survives exactly when `k` is a
   * variable of the newsletter template and no entry is given for it.
   */
  lemma NewsletterPlaceholders(entries: seq<(string, string)>, k: string)
    requires PlainEntries(entries) && LiteralValues(entries) && BraceFree(k)
    ensures Includes(NewsletterContent(EducationalNewsletter, Some(entries)), Placeholder(k))
      <==> k in EducationalNewsletter.variables && k !in Keys(entries)
  {
    EducationalNewsletterConsistent();
    EntriesFilled(EducationalNewsletter, entries, k);
  }

  /**
   * In a consistent template, `{{k}}` survives the substitution exactly
   * when `k` is a variable with no entry.
   */
  lemma EntriesFilled(t: Template, entries: seq<(string, string)>, k: string)
    requires Consistent(t) && PlainEntries(entries) && LiteralValues(entries) && BraceFree(k)
    ensures Includes(FillEach(t.Content(), entries), Placeholder(k))
      <==> k in t.variables && k !in Keys(entries)
  {
    FillEachLeaves(t.Body(), entries, k);
    DistinctCount(t.variables, k);
  }

  lemma {:induction false} DistinctCount(xs: seq<string>, x: string)
    requires Distinct(xs)
    ensures multiset(xs)[x] == if x in xs then 1 else 0
  {
    if |xs| > 0 {
      assert xs == [xs[0]] + xs[1..];
      assert Distinct(xs[1..]) by {
        assert forall i :: 0 <= i < |xs| - 1 ==> xs[1..][i] == xs[i + 1];
      }
      DistinctCount(xs[1..], x);
      assert xs[0] !in xs[1..] by {
        assert forall i :: 0 <= i < |xs| - 1 ==> xs[1..][i] == xs[i + 1];
      }
    }
  }

  /**
   * `sendNewsletter`: the newsletter campaign is created for the whole list
   * and, its id being a positive number, sent straight away.
   */
  method SendNewsletter(db: Campaigns, recipients: seq<string>, customContent: Option<seq<(string, string)>>,
                        dateText: string, apiKey: string, delivered: seq<bool>, now: int)
    returns (r: Campaigns, sent: nat, failed: nat)
    requires ValidTable(db)
    ensures db.nextId in r.rows && db.nextId !in db.rows
    ensures r.rows[db.nextId] == Campaign("Newsletter - " + dateText, EducationalNewsletter.subject,
      NewsletterContent(EducationalNewsletter, customContent), recipients, now, Sent, sent, Some(now))
    ensures sent + failed == |recipients|
    ensures sent == Successes(apiKey, delivered, |recipients|)
    ensures r.rows.Keys == db.rows.Keys + {db.nextId}
    ensures forall id :: id in db.rows ==> r.rows[id] == db.rows[id]
  {
    FindByName(5);
    var template := FindTemplate(Templates, "educational_newsletter").value;
    var content := NewsletterContent(template, customContent);
    var (db1, id) := CreateCampaign(db, "Newsletter - " + dateText, template.subject, content, recipients, now);
    r, sent, failed := SendCampaign(db1, id, apiKey, delivered, now);
  }
}
