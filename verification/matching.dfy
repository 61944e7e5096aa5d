/**
 * Matching a call identifier against a rule (`callMatches`) and deciding whether
 * one of the rule's exceptions applies (`isAllowed`, `hasAllowedParams`).
 */
module Matching {
  import opened Wrappers
  import opened Rules

  /**
   * The call node as the host sees it: one entry per argument, holding the
   * argument's value when the host infers a constant scalar type for it.
   */
  datatype Node = Node(args: seq<Option<Literal>>)

  /** The file being analysed and the call node (absent when the host passes none). */
  datatype CallSite = CallSite(file: string, node: Option<Node>)

  /** Glob-matches a configured path pattern (made absolute by the host) against a file. */
  type PathMatcher = (string, string) -> bool

  /** Drops every trailing '*'. */
  function TrimTrailingStars(s: string): (r: string)
    ensures r <= s
    ensures r == [] || r[|r| - 1] != '*'
    ensures forall i :: |r| <= i < |s| ==> s[i] == '*'
  {
    if s != [] && s[|s| - 1] == '*' then TrimTrailingStars(s[..|s| - 1]) else s
  }

  /** Drops every leading '*'. */
  function TrimLeadingStars(s: string): (r: string)
    ensures |r| <= |s| && r == s[|s| - |r|..]
    ensures r == [] || r[0] != '*'
    ensures forall i :: 0 <= i < |s| - |r| ==> s[i] == '*'
  {
    if s != [] && s[0] == '*' then TrimLeadingStars(s[1..]) else s
  }

  /** `r` sits in `s` at `lo`, with only stars before and after it. */
  predicate StarPaddedAt(s: string, r: string, lo: int) {
    && 0 <= lo <= |s| - |r| && r <= s[lo..]
    && (forall i :: 0 <= i < lo ==> s[i] == '*')
    && (forall i :: lo + |r| <= i < |s| ==> s[i] == '*')
  }

  /** Dropping trailing and then leading stars leaves a string that neither starts nor ends with '*'. */
  lemma TrimmedHasNoBoundaryStar(t: string, r: string)
    requires t == [] || t[|t| - 1] != '*'
    requires r == TrimLeadingStars(t)
    ensures r == [] || (r[0] != '*' && r[|r| - 1] != '*')
  {
    if r != [] {
      assert r[|r| - 1] == t[|t| - |r| + |r| - 1];
    }
  }

  /** Dropping trailing and then leading stars leaves an infix padded with stars only. */
  lemma TrimmedIsStarPadded(s: string, t: string, r: string)
    requires t == TrimTrailingStars(s) && r == TrimLeadingStars(t)
    ensures StarPaddedAt(s, r, |t| - |r|)
  {
    var lo := |t| - |r|;
    assert r <= s[lo..] by {
      assert t == s[..|t|];
    }
    assert forall i :: 0 <= i < lo ==> s[i] == '*' by {
      forall i | 0 <= i < lo ensures s[i] == '*' {
        assert t == s[..|t|];
        assert s[i] == t[i];
      }
    }
    assert forall i :: lo + |r| <= i < |s| ==> s[i] == '*' by {
      assert lo + |r| == |t|;
    }
  }

  /** PHP's `trim($s, '*')`: the longest infix of `s` that neither starts nor ends with '*'. */
  function TrimStars(s: string): (r: string)
    ensures r == [] || (r[0] != '*' && r[|r| - 1] != '*')
    ensures exists lo :: StarPaddedAt(s, r, lo)
  {
    var t := TrimTrailingStars(s);
    var r := TrimLeadingStars(t);
    TrimmedHasNoBoundaryStar(t, r);
    TrimmedIsStarPadded(s, t, r);
    r
  }

  /** A rule whose call ends in '*' matches by prefix. */
  predicate IsWildcard(call: CallName)
    ensures IsWildcard(call) <==> call == call[..|call| - 1] + "*"
  {
    call[|call| - 1] == '*'
  }

  /**
   * `callMatches`: a wildcard rule matches every name that starts with its call
   * trimmed of '*' at both ends; any other rule matches only its own call string.
   * A rule not starting with '*' always matches its own call string.
   */
  function CallMatches(rule: DisallowedCall, name: string): (r: bool)
    ensures !IsWildcard(rule.call) && r ==> name == rule.call
    ensures name == rule.call && rule.call[0] != '*' ==> r
  {
    if IsWildcard(rule.call) then
      TrimStars(rule.call) <= name
    else
      name == rule.call
  }

  /** Stripping trailing stars from `a` followed by stars only gives back `a`, when `a` does not end in '*'. */
  lemma {:induction false} TrimTrailingStarsOfStarTail(a: string, trail: string)
    requires a == [] || a[|a| - 1] != '*'
    requires forall i :: 0 <= i < |trail| ==> trail[i] == '*'
    ensures TrimTrailingStars(a + trail) == a
  {
    if trail == [] {
      assert a + trail == a;
    } else {
      var s := a + trail;
      assert s[|s| - 1] == trail[|trail| - 1];
      assert s[..|s| - 1] == a + trail[..|trail| - 1];
      TrimTrailingStarsOfStarTail(a, trail[..|trail| - 1]);
    }
  }

  /** Stripping leading stars from stars only followed by `p` gives back `p`, when `p` does not start with '*'. */
  lemma {:induction false} TrimLeadingStarsOfStarLead(lead: string, p: string)
    requires forall i :: 0 <= i < |lead| ==> lead[i] == '*'
    requires p == [] || p[0] != '*'
    ensures TrimLeadingStars(lead + p) == p
  {
    if lead == [] {
      assert lead + p == p;
    } else {
      assert (lead + p)[1..] == lead[1..] + p;
      TrimLeadingStarsOfStarLead(lead[1..], p);
    }
  }

  /**
   * Every wildcard rule, written as some stars, a prefix that neither starts nor ends
   * with '*', and at least one star, matches exactly the names that start with the
   * prefix: the leading stars are dropped too, so `*foo*` matches `foobar` but not `xfoo`.
   */
  lemma WildcardMatchesStrippedPrefix(rule: DisallowedCall, lead: string, prefix: string, trail: string, name: string)
    requires rule.call == lead + prefix + trail
    requires trail != [] && forall i :: 0 <= i < |trail| ==> trail[i] == '*'
    requires forall i :: 0 <= i < |lead| ==> lead[i] == '*'
    requires prefix == [] || (prefix[0] != '*' && prefix[|prefix| - 1] != '*')
    ensures CallMatches(rule, name) <==> prefix <= name
  {
    var call := rule.call;
    assert call[|call| - 1] == trail[|trail| - 1];
    assert IsWildcard(call);
    if prefix == [] {
      assert call == [] + (lead + trail);
      forall i | 0 <= i < |lead + trail| ensures (lead + trail)[i] == '*' {
        if i >= |lead| {
          assert (lead + trail)[i] == trail[i - |lead|];
        }
      }
      TrimTrailingStarsOfStarTail([], lead + trail);
      assert TrimLeadingStars([]) == [];
    } else {
      var a := lead + prefix;
      assert call == a + trail;
      assert a[|a| - 1] == prefix[|prefix| - 1];
      TrimTrailingStarsOfStarTail(a, trail);
      TrimLeadingStarsOfStarLead(lead, prefix);
    }
    assert TrimStars(call) == prefix;
  }

  /**
   * The common case `prefix*`: it matches exactly the names that start with the
   * prefix, the bare prefix included.
   */
  lemma WildcardMatchesExactlyPrefixed(rule: DisallowedCall, prefix: string, name: string)
    requires rule.call == prefix + "*"
    requires prefix == [] || (prefix[0] != '*' && prefix[|prefix| - 1] != '*')
    ensures CallMatches(rule, name) <==> prefix <= name
    ensures CallMatches(rule, prefix)
  {
    assert rule.call == [] + prefix + "*";
    WildcardMatchesStrippedPrefix(rule, [], prefix, "*", name);
    WildcardMatchesStrippedPrefix(rule, [], prefix, "*", prefix);
  }

  /** The argument at a 1-based position, when it exists and is a known constant. */
  function ArgValue(node: Node, position: int): (r: Option<Literal>)
    ensures !(1 <= position <= |node.args|) ==> r.None?
    ensures 1 <= position <= |node.args| ==> r == node.args[position - 1]
  {
    if 1 <= position <= |node.args| then node.args[position - 1] else None
  }

  /** One configured position is satisfied: the argument exists, is constant, and is strictly equal. */
  predicate Passes(node: Node, p: ParamRule)
    ensures Passes(node, p) <==> 1 <= p.position <= |node.args| && node.args[p.position - 1] == Some(p.value)
  {
    ArgValue(node, p.position) == Some(p.value)
  }

  /**
   * What `hasAllowedParams` decides: with no node or an empty configuration the
   * supplied default; otherwise whether every configured position passes.
   */
  function ParamsAllow(node: Option<Node>, config: ParamConfig, defaultResult: bool): (r: bool)
    ensures node.Some? && config != [] ==> (r <==> forall p :: p in config ==> Passes(node.value, p))
  {
    if node.None? || config == [] then defaultResult
    else forall i :: 0 <= i < |config| ==> Passes(node.value, config[i])
  }

  /**
   * `hasAllowedParams`: walks the configuration once, setting a `disallowed` flag
   * as soon as a position is missing, not constant, or holds another value.
   */
  method HasAllowedParams(node: Option<Node>, allowConfig: ParamConfig, defaultResult: bool) returns (r: bool)
    ensures r == ParamsAllow(node, allowConfig, defaultResult)
  {
    if node.None? {
      return defaultResult;
    }
    var args := node.value.args;
    var disallowed := false;
    for i := 0 to |allowConfig|
      invariant disallowed <==> exists j :: 0 <= j < i && !Passes(node.value, allowConfig[j])
    {
      var param, value := allowConfig[i].position, allowConfig[i].value;
      if 0 <= param - 1 < |args| && args[param - 1].Some? {
        disallowed := disallowed || (value != args[param - 1].value);
      } else {
        disallowed := true;
      }
    }
    if |allowConfig| > 0 {
      return !disallowed;
    }
    return defaultResult;
  }

  /**
   * The parameter check does not depend on the iteration order of the configuration:
   * two configurations with the same entries decide alike.
   */
  lemma {:induction false} ParamsAllowIgnoresOrder(node: Option<Node>, c1: ParamConfig, c2: ParamConfig, defaultResult: bool)
    requires forall p :: p in c1 <==> p in c2
    ensures ParamsAllow(node, c1, defaultResult) == ParamsAllow(node, c2, defaultResult)
  {
    if c1 != [] {
      assert c1[0] in c2;
    }
    if c2 != [] {
      assert c2[0] in c1;
    }
  }

  /** Some configured path pattern matches the file. */
  predicate InAllowedPath(file: string, patterns: seq<string>, pathMatches: PathMatcher)
    ensures patterns == [] ==> !InAllowedPath(file, patterns, pathMatches)
    ensures InAllowedPath(file, patterns, pathMatches) <==> exists p :: p in patterns && pathMatches(p, file)
  {
    exists i :: 0 <= i < |patterns| && pathMatches(patterns[i], file)
  }

  /**
   * What `isAllowed` decides: a matching path together with the in-path parameter
   * check (default true), or else the anywhere parameter check (default false).
   */
  function Allowed(site: CallSite, rule: DisallowedCall, pathMatches: PathMatcher): (r: bool)
    ensures InAllowedPath(site.file, rule.allowIn, pathMatches) && ParamsAllow(site.node, rule.allowParamsInAllowed, true) ==> r
    ensures InAllowedPath(site.file, rule.allowIn, pathMatches) && rule.allowParamsInAllowed == [] ==> r
    ensures !InAllowedPath(site.file, rule.allowIn, pathMatches) ==> r == ParamsAllow(site.node, rule.allowParamsAnywhere, false)
    ensures !ParamsAllow(site.node, rule.allowParamsInAllowed, true) ==> r == ParamsAllow(site.node, rule.allowParamsAnywhere, false)
    ensures site.node.None? ==> r == InAllowedPath(site.file, rule.allowIn, pathMatches)
    ensures rule.allowIn == [] && rule.allowParamsAnywhere == [] ==> !r
  {
    (InAllowedPath(site.file, rule.allowIn, pathMatches) && ParamsAllow(site.node, rule.allowParamsInAllowed, true))
    || ParamsAllow(site.node, rule.allowParamsAnywhere, false)
  }

  /** `isAllowed`: tries each allowed path in turn, then falls back to the anywhere check. */
  method IsAllowed(site: CallSite, rule: DisallowedCall, pathMatches: PathMatcher) returns (r: bool)
    ensures r == Allowed(site, rule, pathMatches)
  {
    for i := 0 to |rule.allowIn|
      invariant (exists j :: 0 <= j < i && pathMatches(rule.allowIn[j], site.file))
        ==> !ParamsAllow(site.node, rule.allowParamsInAllowed, true)
    {
      var matched := pathMatches(rule.allowIn[i], site.file);
      if matched {
        var paramsOk := HasAllowedParams(site.node, rule.allowParamsInAllowed, true);
        if paramsOk {
          return true;
        }
      }
    }
    r := HasAllowedParams(site.node, rule.allowParamsAnywhere, false);
  }
}
