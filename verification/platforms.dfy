/**
 * The platform registry and the part of the platform adapters the scheduler
 * relies on: an adapter's name, its credentials, whether it is configured
 * and whether it is authenticated. The network side of an adapter (logging
 * in, posting, reading metrics) is an oracle: its outcome is a parameter.
 */
module Platforms {
  import opened Common

  /** One platform connector. `credentials` are the values of its credential record. */
  datatype Adapter = Adapter(name: string, credentials: seq<string>, authenticated: bool)

  /** A new connector: it starts out not authenticated. */
  function NewAdapter(name: string, credentials: seq<string>): (a: Adapter)
    ensures PlatformName(a) == name && a.credentials == credentials
    ensures !IsAuth(a)
  {
    Adapter(name, credentials, false)
  }

  /** Every credential value is non-empty (vacuously so for no credentials). */
  predicate IsConfigured(a: Adapter)
  {
    forall k :: 0 <= k < |a.credentials| ==> a.credentials[k] != ""
  }

  function PlatformName(a: Adapter): string { a.name }

  predicate IsAuth(a: Adapter) { a.authenticated }

  /** Whether a connector is configured never depends on its authentication state. */
  lemma ConfiguredIgnoresAuth(a: Adapter, b: bool)
    ensures IsConfigured(a.(authenticated := b)) <==> IsConfigured(a)
    ensures IsConfigured(a) <==> "" !in a.credentials
  {
    if "" in a.credentials {
      var k :| 0 <= k < |a.credentials| && a.credentials[k] == "";
    }
  }

  /** The credential values of the five connectors, as read from the configuration. */
  datatype Credentials = Credentials(
    twitter: seq<string>,
    linkedin: seq<string>,
    facebook: seq<string>,
    instagram: seq<string>,
    reddit: seq<string>)

  /** The registry's platform names, in insertion order. */
  const RegistryNames: seq<string> := ["twitter", "linkedin", "facebook", "instagram", "reddit"]

  /** The registry: a map from name to connector that keeps insertion order. */
  type Registry = seq<Adapter>

  /** The names of a registry's connectors, in order. */
  function Names(reg: Registry): (r: seq<string>)
    ensures |r| == |reg|
    ensures forall i :: 0 <= i < |reg| ==> r[i] == reg[i].name
  {
    seq(|reg|, i requires 0 <= i < |reg| => reg[i].name)
  }

  /** The registry built at start-up: the five connectors, none authenticated. */
  function InitialRegistry(c: Credentials): (reg: Registry)
    ensures Names(reg) == RegistryNames
    ensures forall i :: 0 <= i < |reg| ==> !IsAuth(reg[i])
    ensures Distinct(Names(reg))
  {
    [NewAdapter("twitter", c.twitter), NewAdapter("linkedin", c.linkedin),
     NewAdapter("facebook", c.facebook), NewAdapter("instagram", c.instagram),
     NewAdapter("reddit", c.reddit)]
  }

  /** `getPlatform(name)`: the connector registered under `name`, if any. */
  function GetPlatform(reg: Registry, name: string): (r: Option<Adapter>)
    ensures r.None? <==> name !in Names(reg)
    ensures r.Some? ==> r.value in reg && r.value.name == name
  {
    if |reg| == 0 then None
    else if reg[0].name == name then Some(reg[0])
    else
      var r := GetPlatform(reg[1..], name);
      assert Names(reg) == [reg[0].name] + Names(reg[1..]);
      r
  }

  /** In a registry with distinct names, the connector found is the one at the name's position. */
  lemma {:induction false} GetPlatformAt(reg: Registry, i: nat)
    requires Distinct(Names(reg)) && i < |reg|
    ensures GetPlatform(reg, reg[i].name) == Some(reg[i])
    decreases i
  {
    if i > 0 {
      assert Names(reg)[0] != Names(reg)[i];
      assert Names(reg[1..]) == Names(reg)[1..];
      GetPlatformAt(reg[1..], i - 1);
    }
  }

  /** `getAuthenticatedPlatforms()`: the authenticated connectors, in registry order. */
  function AuthenticatedPlatforms(reg: Registry): (r: seq<Adapter>)
    ensures |r| <= |reg|
    ensures forall a :: a in r <==> a in reg && IsAuth(a)
    ensures |reg| > 0 && IsAuth(reg[0]) ==> |r| > 0 && r[0] == reg[0]
  {
    if |reg| == 0 then []
    else if IsAuth(reg[0]) then [reg[0]] + AuthenticatedPlatforms(reg[1..])
    else AuthenticatedPlatforms(reg[1..])
  }

  /** The authenticated list keeps registry order: it is a subsequence of the registry. */
  lemma {:induction false} AuthenticatedKeepsOrder(reg: Registry)
    ensures IsSubsequence(AuthenticatedPlatforms(reg), reg)
    decreases |reg|
  {
    if |reg| > 0 {
      AuthenticatedKeepsOrder(reg[1..]);
      var rest := AuthenticatedPlatforms(reg[1..]);
      if IsAuth(reg[0]) {
        assert ([reg[0]] + rest)[1..] == rest;
      } else {
        SubsequencePrepend(rest, reg[1..], reg[0]);
      }
      assert [reg[0]] + reg[1..] == reg;
    }
  }

  /** `xs` is obtained from `ys` by dropping elements. */
  predicate IsSubsequence<T(==)>(xs: seq<T>, ys: seq<T>)
    decreases |ys|
  {
    if |xs| == 0 then true
    else if |ys| == 0 then false
    else if xs[0] == ys[0] then IsSubsequence(xs[1..], ys[1..])
    else IsSubsequence(xs, ys[1..])
  }

  lemma {:induction false} SubsequencePrepend<T>(xs: seq<T>, ys: seq<T>, y: T)
    requires IsSubsequence(xs, ys)
    ensures IsSubsequence(xs, [y] + ys)
    decreases |ys|, 1
  {
    assert ([y] + ys)[1..] == ys;
    if |xs| > 0 && xs[0] == y {
      SubsequenceDropHead(xs, ys);
    }
  }

  lemma {:induction false} SubsequenceDropHead<T>(xs: seq<T>, ys: seq<T>)
    requires |xs| > 0 && IsSubsequence(xs, ys)
    ensures IsSubsequence(xs[1..], ys)
    decreases |ys|, 0
  {
    assert [ys[0]] + ys[1..] == ys;
    if xs[0] == ys[0] {
      SubsequencePrepend(xs[1..], ys[1..], ys[0]);
    } else {
      SubsequenceDropHead(xs, ys[1..]);
      SubsequencePrepend(xs[1..], ys[1..], ys[0]);
    }
  }

  /** `isPlatformReady(name)`: registered, configured and authenticated. */
  predicate IsPlatformReady(reg: Registry, name: string)
  {
    var a := GetPlatform(reg, name);
    a.Some? && IsConfigured(a.value) && IsAuth(a.value)
  }

  /**
   * In a registry with distinct names, a name is ready exactly when the
   * connector registered under it is configured and authenticated.
   */
  lemma ReadyIff(reg: Registry, name: string)
    requires Distinct(Names(reg))
    ensures IsPlatformReady(reg, name) <==>
      exists i :: 0 <= i < |reg| && reg[i].name == name && IsConfigured(reg[i]) && IsAuth(reg[i])
  {
    if i :| 0 <= i < |reg| && reg[i].name == name && IsConfigured(reg[i]) && IsAuth(reg[i]) {
      GetPlatformAt(reg, i);
    }
  }

  /** An unregistered name is never ready. */
  lemma UnknownNotReady(reg: Registry, name: string)
    requires name !in Names(reg)
    ensures !IsPlatformReady(reg, name)
  {
  }

  /** What a connector's login attempt did. */
  datatype AuthOutcome = Accepted | Rejected | Threw

  /**
   * `authenticateAll()`: every connector in registry order gets an entry;
   * an unconfigured one is skipped (false, state untouched), a configured
   * one logs in with the outcome `login` gives for its name.
   */
  function AuthenticateAll(reg: Registry, login: string -> AuthOutcome): (r: (Registry, seq<(string, bool)>))
    ensures |r.0| == |reg| && |r.1| == |reg|
    ensures forall i :: 0 <= i < |reg| ==>
      && r.0[i].name == reg[i].name && r.0[i].credentials == reg[i].credentials
      && r.1[i].0 == reg[i].name
      && (r.1[i].1 <==> IsConfigured(reg[i]) && login(reg[i].name) == Accepted)
    ensures forall i :: 0 <= i < |reg| && !IsConfigured(reg[i]) ==> r.0[i] == reg[i]
    ensures forall i :: 0 <= i < |reg| && IsConfigured(reg[i]) ==>
      (IsAuth(r.0[i]) <==> login(reg[i].name) == Accepted || (login(reg[i].name) == Threw && IsAuth(reg[i])))
  {
    var after := seq(|reg|, i requires 0 <= i < |reg| => AuthenticateOne(reg[i], login(reg[i].name)));
    assert forall i :: 0 <= i < |reg| ==> after[i] == AuthenticateOne(reg[i], login(reg[i].name));
    (after, seq(|reg|, i requires 0 <= i < |reg| =>
      (reg[i].name, IsConfigured(reg[i]) && login(reg[i].name) == Accepted)))
  }

  /** One connector's login: success authenticates, rejection de-authenticates, a throw changes nothing. */
  function AuthenticateOne(a: Adapter, outcome: AuthOutcome): Adapter
  {
    if !IsConfigured(a) then a
    else match outcome
      case Accepted => a.(authenticated := true)
      case Rejected => a.(authenticated := false)
      case Threw => a
  }

  /** After logging in, the connectors that are authenticated are exactly the configured ones whose login was accepted, when none was authenticated before. */
  lemma AuthenticateFromScratch(c: Credentials, login: string -> AuthOutcome)
    ensures var reg := AuthenticateAll(InitialRegistry(c), login).0;
      forall i :: 0 <= i < |reg| ==>
        (IsAuth(reg[i]) <==> IsConfigured(InitialRegistry(c)[i]) && login(RegistryNames[i]) == Accepted)
  {
    var reg0 := InitialRegistry(c);
    assert forall i :: 0 <= i < |reg0| ==> reg0[i].name == RegistryNames[i];
  }

  /** What a connector's network call for a post returned. */
  datatype NetworkPost = Sent(postId: string) | Refused(error: string)

  /** The result of `post(content)`; an absent id or error is `None`. */
  datatype PostResult = PostResult(success: bool, postId: Option<string>, error: Option<string>)

  /** The platform name as the connectors spell it in their messages. */
  function DisplayName(name: string): string
  {
    if name == "twitter" then "Twitter"
    else if name == "linkedin" then "LinkedIn"
    else if name == "facebook" then "Facebook"
    else if name == "instagram" then "Instagram"
    else if name == "reddit" then "Reddit"
    else name
  }

  const InstagramNeedsMedia: string := "Instagram posts require at least one image or video"

  /**
   * A connector's `post(content, mediaUrls)`: it refuses without a network
   * call when not authenticated, and Instagram refuses a post without media.
   */
  function AdapterPost(a: Adapter, media: seq<string>, network: NetworkPost): (r: PostResult)
    ensures !IsAuth(a) ==> r == PostResult(false, None, Some("Not authenticated with " + DisplayName(a.name)))
    ensures IsAuth(a) && a.name == "instagram" && |media| == 0 ==> r == PostResult(false, None, Some(InstagramNeedsMedia))
    ensures r.success <==> IsAuth(a) && !(a.name == "instagram" && |media| == 0) && network.Sent?
    ensures r.success ==> r.postId == Some(network.postId) && r.error.None?
  {
    if !IsAuth(a) then PostResult(false, None, Some("Not authenticated with " + DisplayName(a.name)))
    else if a.name == "instagram" && |media| == 0 then PostResult(false, None, Some(InstagramNeedsMedia))
    else match network
      case Sent(id) => PostResult(true, Some(id), None)
      case Refused(e) => PostResult(false, None, if e == "" then None else Some(e))
  }

  /** Four engagement counters. */
  datatype Metrics = Metrics(likes: int, comments: int, shares: int, views: int)

  /** A connector's `getEngagement(id)`: nothing when not authenticated, otherwise what the network returned. */
  function AdapterEngagement(a: Adapter, network: Option<Metrics>): (r: Option<Metrics>)
    ensures !IsAuth(a) ==> r.None?
    ensures IsAuth(a) ==> r == network
  {
    if IsAuth(a) then network else None
  }
}
