/**
 * Composing the diagnostic for the first rule that matches and is not allowed
 * (`getDisallowedMessage`).
 */
module Messages {
  import opened Wrappers
  import opened Rules
  import opened Matching

  /** Whether the alias is shown: a truthy display name that differs from the name. */
  predicate ShowsAlias(name: string, displayName: Option<string>)
    ensures displayName.None? || displayName == Some(name) ==> !ShowsAlias(name, displayName)
    ensures displayName == Some("") || displayName == Some("0") ==> !ShowsAlias(name, displayName)
    ensures displayName.Some? && |displayName.value| >= 2 && displayName.value != name ==> ShowsAlias(name, displayName)
  {
    displayName.Some? && Truthy(displayName.value) && displayName.value != name
  }

  /** `N()`, or `N() (as D())` when the display name is shown. */
  function NameText(name: string, displayName: Option<string>): (r: string)
    ensures r == name + "()" <==> !ShowsAlias(name, displayName)
    ensures name + "()" <= r
  {
    if ShowsAlias(name, displayName) then
      name + "() (as " + displayName.value + "())"
    else
      name + "()"
  }

  /** ` [N() matches C()]`, present only when the rule's call is not the name itself. */
  function MatchSuffix(name: string, call: string): (r: string)
    ensures r == "" <==> call == name
  {
    if call != name then " [" + name + "() matches " + call + "()]" else ""
  }

  /** The diagnostic `Calling N() is forbidden, M`, with the alias and the wildcard note inserted. */
  function Message(name: string, displayName: Option<string>, rule: DisallowedCall): (r: string)
    ensures "Calling " + name + "()" <= r
  {
    "Calling " + NameText(name, displayName) + " is forbidden, " + rule.message.GetOr("")
      + MatchSuffix(name, rule.call)
  }

  /** A rule fires: its call matches the name and none of its exceptions applies. */
  predicate Disallowed(site: CallSite, name: string, rule: DisallowedCall, pathMatches: PathMatcher)
    ensures Disallowed(site, name, rule, pathMatches) ==> CallMatches(rule, name)
    ensures Disallowed(site, name, rule, pathMatches) ==>
      (!InAllowedPath(site.file, rule.allowIn, pathMatches) || !ParamsAllow(site.node, rule.allowParamsInAllowed, true))
    ensures CallMatches(rule, name) && !InAllowedPath(site.file, rule.allowIn, pathMatches)
      ==> (Disallowed(site, name, rule, pathMatches) <==> !ParamsAllow(site.node, rule.allowParamsAnywhere, false))
  {
    CallMatches(rule, name) && !Allowed(site, rule, pathMatches)
  }

  /**
   * What `getDisallowedMessage` returns: no message when no rule fires, and
   * otherwise exactly one message.
   */
  function DisallowedMessage(site: CallSite, name: string, displayName: Option<string>,
                             rules: seq<DisallowedCall>, pathMatches: PathMatcher): (r: seq<string>)
    ensures |r| <= 1
    ensures r == [] <==> forall i :: 0 <= i < |rules| ==> !Disallowed(site, name, rules[i], pathMatches)
  {
    if rules == [] then []
    else if Disallowed(site, name, rules[0], pathMatches) then [Message(name, displayName, rules[0])]
    else DisallowedMessage(site, name, displayName, rules[1..], pathMatches)
  }

  /** The message reported is the one of the first rule, in configured order, that fires. */
  lemma {:induction false} FirstFiringRuleReported(site: CallSite, name: string, displayName: Option<string>,
                                                   rules: seq<DisallowedCall>, pathMatches: PathMatcher, k: int)
    requires 0 <= k < |rules| && Disallowed(site, name, rules[k], pathMatches)
    requires forall j :: 0 <= j < k ==> !Disallowed(site, name, rules[j], pathMatches)
    ensures DisallowedMessage(site, name, displayName, rules, pathMatches) == [Message(name, displayName, rules[k])]
  {
    if k > 0 {
      var rest := rules[1..];
      assert !Disallowed(site, name, rules[0], pathMatches);
      forall j | 0 <= j < k - 1 ensures !Disallowed(site, name, rest[j], pathMatches) {
        assert rest[j] == rules[j + 1];
      }
      FirstFiringRuleReported(site, name, displayName, rest, pathMatches, k - 1);
    }
  }

  /**
   * A rule with no allowed paths and no anywhere parameters fires on every call
   * whose name it matches, whatever the file and the arguments.
   */
  lemma UnconditionalRuleFires(site: CallSite, name: string, rule: DisallowedCall, pathMatches: PathMatcher)
    requires rule.allowIn == [] && rule.allowParamsAnywhere == []
    requires CallMatches(rule, name)
    ensures Disallowed(site, name, rule, pathMatches)
  {
  }

  /** `getDisallowedMessage`: scans the rules in order and returns on the first that fires. */
  method GetDisallowedMessage(site: CallSite, name: string, displayName: Option<string>,
                              rules: seq<DisallowedCall>, pathMatches: PathMatcher) returns (r: seq<string>)
    ensures r == DisallowedMessage(site, name, displayName, rules, pathMatches)
  {
    for i := 0 to |rules|
      invariant DisallowedMessage(site, name, displayName, rules[i..], pathMatches)
        == DisallowedMessage(site, name, displayName, rules, pathMatches)
    {
      assert rules[i..][1..] == rules[i + 1..];
      if CallMatches(rules[i], name) {
        var allowed := IsAllowed(site, rules[i], pathMatches);
        if !allowed {
          return [Message(name, displayName, rules[i])];
        }
      }
    }
    return [];
  }
}
