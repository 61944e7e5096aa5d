/**
 * The rule set of tests/StaticCallsTest.php (with call strings already normalised:
 * no trailing `()` and no leading `\`) and the diagnostics that test expects.
 */
module Scenarios {
  import opened Wrappers
  import opened Rules
  import opened Matching
  import opened Messages
  import opened Origin

  const Patterns: seq<string> := ["src/disallowed-allowed/*.php", "src/*-allow/*.*"]

  const Royale := @"Fiction\Pulp\Royale"
  const WithCheese := @"Fiction\Pulp\Royale::withCheese"
  const WithBad := @"Fiction\Pulp\Royale::withBad"
  const WithBadCheese := @"Fiction\Pulp\Royale::withBadCheese"
  const WithoutCheese := @"Fiction\Pulp\Royale::withoutCheese"
  const BaseWoofer := @"Inheritance\Base::woofer"
  const SubWoofer := @"Inheritance\Sub::woofer"
  const TraitZ := @"Traits\TestTrait::z"
  const ClassZ := @"Traits\TestClass::z"
  const AnotherZz := @"Traits\AnotherTestClass::zz"

  const CheeseMessage := "a Quarter Pounder with Cheese?"

  const WithoutCheeseInAllowed: ParamConfig := [ParamRule(1, Int(1)), ParamRule(2, Int(2)), ParamRule(3, Int(3))]
  const WithoutCheeseAnywhere: ParamConfig := [ParamRule(1, Int(1)), ParamRule(2, Int(2)), ParamRule(3, Int(4))]

  const TestConfig: seq<RawEntry> := [
    RawEntry(None, Some(WithCheese), Some(CheeseMessage), Some(Patterns), Some([]), None),
    RawEntry(None, Some(WithBad + "*"), Some(CheeseMessage), Some(Patterns), Some([]), None),
    RawEntry(None, Some(WithoutCheese), Some("a Quarter Pounder without Cheese?"),
             Some(Patterns), Some(WithoutCheeseInAllowed), Some(WithoutCheeseAnywhere)),
    RawEntry(None, Some(BaseWoofer), Some("method Base::woofer() is dangerous"), Some(Patterns), None, None),
    RawEntry(None, Some(TraitZ), Some("method TestTrait::z() is dangerous"), Some(Patterns), None, None),
    RawEntry(None, Some(AnotherZz), Some("method AnotherTestClass::zz() is dangerous"), Some(Patterns), None, None)
  ]

  const TestRules: seq<DisallowedCall> := [
    DisallowedCall(WithCheese, Some(CheeseMessage), Patterns, [], []),
    DisallowedCall(WithBad + "*", Some(CheeseMessage), Patterns, [], []),
    DisallowedCall(WithoutCheese, Some("a Quarter Pounder without Cheese?"),
                   Patterns, WithoutCheeseInAllowed, WithoutCheeseAnywhere),
    DisallowedCall(BaseWoofer, Some("method Base::woofer() is dangerous"), Patterns, [], []),
    DisallowedCall(TraitZ, Some("method TestTrait::z() is dangerous"), Patterns, [], []),
    DisallowedCall(AnotherZz, Some("method AnotherTestClass::zz() is dangerous"), Patterns, [], [])
  ]

  /** Each test entry compiles to the corresponding rule. */
  lemma TestEntryCompiles(i: int)
    requires 0 <= i < |TestConfig|
    ensures CompileEntry(TestConfig[i]) == Success(TestRules[i])
  {
    if i == 0 {} else if i == 1 {} else if i == 2 {} else if i == 3 {} else if i == 4 {} else {}
  }

  /** The test configuration compiles to one rule per entry, in order, with empty defaults. */
  lemma TestConfigCompiles()
    ensures CompileConfig(TestConfig) == Success(TestRules)
  {
    forall i | 0 <= i < |TestConfig| ensures CompileEntry(TestConfig[i]).Success? {
      TestEntryCompiles(i);
    }
    var r := CompileConfig(TestConfig);
    assert r.Success? && |r.value| == |TestRules|;
    forall i | 0 <= i < |TestConfig| ensures r.value[i] == TestRules[i] {
      TestEntryCompiles(i);
    }
    assert r.value == TestRules;
  }

  /** No allowed pattern matches the file. */
  predicate OutsideAllowedPaths(file: string, pathMatches: PathMatcher) {
    !pathMatches(Patterns[0], file) && !pathMatches(Patterns[1], file)
  }

  /**
   * A static call `C::m()` with no arguments, on class `calledOn`, of a method that
   * `declaringClass` declares and no trait of it declares.
   */
  function StaticCall(calledOn: string, declaringClass: string, name: string, file: string): MethodCallSite {
    MethodCallSite(true, CalledOnType(Some(calledOn), Some(MethodReflection(name, declaringClass, []))), file, Node([]))
  }

  /** Such a call resolves to the declaring class, reported as called on the called-on class. */
  lemma StaticCallResolves(calledOn: string, declaringClass: string, name: string, file: string,
                           rules: seq<DisallowedCall>, pathMatches: PathMatcher)
    ensures MethodMessage(StaticCall(calledOn, declaringClass, name, file), rules, pathMatches)
      == DisallowedMessage(CallSite(file, Some(Node([]))), declaringClass + "::" + name,
                           Some(calledOn + "::" + name), rules, pathMatches)
  {
  }

  /** An exact rule does not match a name of another length or with another first character. */
  lemma ExactRuleMisses(rule: DisallowedCall, name: string)
    requires !IsWildcard(rule.call)
    requires |name| != |rule.call| || (name != [] && name[0] != rule.call[0])
    ensures !CallMatches(rule, name)
  {
  }

  /** Which names the wildcard rule `Fiction\Pulp\Royale::withBad*` matches. */
  lemma BadCheeseRuleMatches(name: string)
    ensures CallMatches(TestRules[1], name) <==> WithBad <= name
  {
    WildcardMatchesExactlyPrefixed(TestRules[1], WithBad, name);
  }

  /** Outside the allowed paths, every test rule but `withoutCheese` fires on each name it matches. */
  lemma RuleFiresOutside(site: CallSite, name: string, pathMatches: PathMatcher, k: int)
    requires OutsideAllowedPaths(site.file, pathMatches)
    requires 0 <= k < |TestRules| && k != 2 && CallMatches(TestRules[k], name)
    ensures Disallowed(site, name, TestRules[k], pathMatches)
  {
    assert TestRules[k].allowIn == Patterns && TestRules[k].allowParamsAnywhere == [];
    assert !InAllowedPath(site.file, Patterns, pathMatches);
  }

  /** The k-th test rule is reported when it fires and no earlier rule matches the name. */
  lemma TestRuleReported(site: CallSite, name: string, alias: Option<string>, pathMatches: PathMatcher, k: int)
    requires 0 <= k < |TestRules| && Disallowed(site, name, TestRules[k], pathMatches)
    requires forall j :: 0 <= j < k ==> !CallMatches(TestRules[j], name)
    ensures DisallowedMessage(site, name, alias, TestRules, pathMatches) == [Message(name, alias, TestRules[k])]
  {
    FirstFiringRuleReported(site, name, alias, TestRules, pathMatches, k);
  }

  /** The qualified names of the two `Royale` methods called statically in the test. */
  lemma RoyaleNames()
    ensures Royale + "::" + "withCheese" == WithCheese
    ensures Royale + "::" + "withBadCheese" == WithBadCheese
  {
  }

  /**
   * The plain call to `withCheese` outside the allowed paths is reported by the first
   * rule (expected at tests/StaticCallsTest.php line 89).
   */
  lemma WithCheeseReported(file: string, pathMatches: PathMatcher)
    requires OutsideAllowedPaths(file, pathMatches)
    ensures MethodMessage(StaticCall(Royale, Royale, "withCheese", file), TestRules, pathMatches)
      == [Message(WithCheese, Some(WithCheese), TestRules[0])]
  {
    var site := CallSite(file, Some(Node([])));
    StaticCallResolves(Royale, Royale, "withCheese", file, TestRules, pathMatches);
    RoyaleNames();
    RuleFiresOutside(site, WithCheese, pathMatches, 0);
    TestRuleReported(site, WithCheese, Some(WithCheese), pathMatches, 0);
  }

  /** That diagnostic shows neither alias nor wildcard note. */
  lemma WithCheeseText()
    ensures NameText(WithCheese, Some(WithCheese)) == WithCheese + "()"
    ensures MatchSuffix(WithCheese, TestRules[0].call) == ""
  {
  }

  /** The wildcard rule does not match `withCheese`: the names part at the 26th character. */
  lemma WithCheeseMissesWildcard()
    ensures !CallMatches(TestRules[1], WithCheese)
  {
    BadCheeseRuleMatches(WithCheese);
    assert WithBad[25] != WithCheese[25];
  }

  /** Only the first test rule matches `withCheese`. */
  lemma WithCheeseMatchesOnlyItsRule()
    ensures forall j :: 1 <= j < |TestRules| ==> !CallMatches(TestRules[j], WithCheese)
  {
    forall j | 1 <= j < |TestRules| ensures !CallMatches(TestRules[j], WithCheese) {
      if j == 1 {
        WithCheeseMissesWildcard();
      } else {
        ExactRuleMisses(TestRules[j], WithCheese);
      }
    }
  }

  /** The same call inside an allowed path is not reported: the empty in-path parameters allow it. */
  lemma WithCheeseAllowedInAllowedPath(file: string, pathMatches: PathMatcher)
    requires pathMatches(Patterns[1], file)
    ensures MethodMessage(StaticCall(Royale, Royale, "withCheese", file), TestRules, pathMatches) == []
  {
    var site := CallSite(file, Some(Node([])));
    StaticCallResolves(Royale, Royale, "withCheese", file, TestRules, pathMatches);
    RoyaleNames();
    assert InAllowedPath(file, Patterns, pathMatches);
    assert !Disallowed(site, WithCheese, TestRules[0], pathMatches);
    WithCheeseMatchesOnlyItsRule();
  }

  /** `withBadCheese` extends the prefix of the wildcard rule. */
  lemma WithBadCheeseHasBadPrefix()
    ensures WithBad <= WithBadCheese
  {
    assert WithBadCheese == WithBad + "Cheese";
  }

  /** `withBadCheese` is matched by the wildcard rule and not by the exact rule before it. */
  lemma WithBadCheeseMatchesWildcard()
    ensures !CallMatches(TestRules[0], WithBadCheese)
    ensures CallMatches(TestRules[1], WithBadCheese)
  {
    WithBadCheeseHasBadPrefix();
    BadCheeseRuleMatches(WithBadCheese);
    ExactRuleMisses(TestRules[0], WithBadCheese);
  }

  /**
   * A name reached through the wildcard rule is reported by that rule (expected at
   * tests/StaticCallsTest.php line 98).
   */
  lemma WithBadCheeseReported(file: string, pathMatches: PathMatcher)
    requires OutsideAllowedPaths(file, pathMatches)
    ensures MethodMessage(StaticCall(Royale, Royale, "withBadCheese", file), TestRules, pathMatches)
      == [Message(WithBadCheese, Some(WithBadCheese), TestRules[1])]
  {
    var site := CallSite(file, Some(Node([])));
    StaticCallResolves(Royale, Royale, "withBadCheese", file, TestRules, pathMatches);
    RoyaleNames();
    WithBadCheeseMatchesWildcard();
    RuleFiresOutside(site, WithBadCheese, pathMatches, 1);
    TestRuleReported(site, WithBadCheese, Some(WithBadCheese), pathMatches, 1);
  }

  /** That diagnostic shows no alias and carries the note naming the wildcard rule. */
  lemma WithBadCheeseText()
    ensures NameText(WithBadCheese, Some(WithBadCheese)) == WithBadCheese + "()"
    ensures MatchSuffix(WithBadCheese, TestRules[1].call) == " [" + WithBadCheese + "() matches " + WithBad + "*" + "()]"
  {
    assert |WithBadCheese| != |TestRules[1].call|;
  }

  /** `Inheritance\Base::woofer` is matched by its own rule and by no earlier one. */
  lemma BaseWooferMatchesOnlyItsRule()
    ensures forall j :: 0 <= j < 3 ==> !CallMatches(TestRules[j], BaseWoofer)
  {
    forall j | 0 <= j < 3 ensures !CallMatches(TestRules[j], BaseWoofer) {
      if j == 1 {
        BadCheeseRuleMatches(BaseWoofer);
        assert WithBad[0] != BaseWoofer[0];
      } else {
        ExactRuleMisses(TestRules[j], BaseWoofer);
      }
    }
  }

  /** The qualified names of `woofer` under the declaring base class and under the subclass. */
  lemma WooferNames()
    ensures @"Inheritance\Base" + "::" + "woofer" == BaseWoofer
    ensures @"Inheritance\Sub" + "::" + "woofer" == SubWoofer
  {
  }

  /**
   * An inherited method is reported under its declaring base class, with the subclass
   * as alias (expected at tests/StaticCallsTest.php line 114).
   */
  lemma InheritedMethodReported(file: string, pathMatches: PathMatcher)
    requires OutsideAllowedPaths(file, pathMatches)
    ensures MethodMessage(StaticCall(@"Inheritance\Sub", @"Inheritance\Base", "woofer", file), TestRules, pathMatches)
      == [Message(BaseWoofer, Some(SubWoofer), TestRules[3])]
  {
    var site := CallSite(file, Some(Node([])));
    StaticCallResolves(@"Inheritance\Sub", @"Inheritance\Base", "woofer", file, TestRules, pathMatches);
    WooferNames();
    BaseWooferMatchesOnlyItsRule();
    RuleFiresOutside(site, BaseWoofer, pathMatches, 3);
    TestRuleReported(site, BaseWoofer, Some(SubWoofer), pathMatches, 3);
  }

  /** That diagnostic shows the subclass alias and no wildcard note. */
  lemma BaseWooferText()
    ensures NameText(BaseWoofer, Some(SubWoofer)) == BaseWoofer + "() (as " + SubWoofer + "())"
    ensures MatchSuffix(BaseWoofer, TestRules[3].call) == ""
  {
    assert ShowsAlias(BaseWoofer, Some(SubWoofer)) by { assert BaseWoofer[12] != SubWoofer[12]; }
  }

  /** `Traits\TestTrait::z` is matched by its own rule and by no earlier one. */
  lemma TestTraitMatchesOnlyItsRule()
    ensures forall j :: 0 <= j < 4 ==> !CallMatches(TestRules[j], TraitZ)
  {
    forall j | 0 <= j < 4 ensures !CallMatches(TestRules[j], TraitZ) {
      if j == 1 {
        BadCheeseRuleMatches(TraitZ);
        assert WithBad[0] != TraitZ[0];
      } else {
        ExactRuleMisses(TestRules[j], TraitZ);
      }
    }
  }

  /**
   * A method a trait declares is reported under the trait, with the composing class
   * as alias (expected at tests/StaticCallsTest.php line 118).
   */
  lemma TraitMethodReported(file: string, pathMatches: PathMatcher)
    requires OutsideAllowedPaths(file, pathMatches)
    ensures MethodMessage(
        MethodCallSite(true, CalledOnType(Some(@"Traits\TestClass"),
                                          Some(MethodReflection("z", @"Traits\TestClass", [TraitRef(@"Traits\TestTrait", true)]))),
                       file, Node([])),
        TestRules, pathMatches)
      == [Message(TraitZ, Some(ClassZ), TestRules[4])]
  {
    var reflection := MethodReflection("z", @"Traits\TestClass", [TraitRef(@"Traits\TestTrait", true)]);
    var call := MethodCallSite(true, CalledOnType(Some(@"Traits\TestClass"), Some(reflection)), file, Node([]));
    assert FullyQualified(@"Traits\TestTrait", reflection) == TraitZ;
    assert FullyQualified(@"Traits\TestClass", reflection) == ClassZ;
    TestTraitMatchesOnlyItsRule();
    RuleFiresOutside(SiteOf(call), TraitZ, pathMatches, 4);
    TestRuleReported(SiteOf(call), TraitZ, Some(ClassZ), pathMatches, 4);
    TraitBeatsDeclaringClass(call, TestRules, pathMatches, 0);
  }

  /** That diagnostic shows the composing class alias and no wildcard note. */
  lemma TestTraitText()
    ensures NameText(TraitZ, Some(ClassZ)) == TraitZ + "() (as " + ClassZ + "())"
    ensures MatchSuffix(TraitZ, TestRules[4].call) == ""
  {
    assert ShowsAlias(TraitZ, Some(ClassZ)) by { assert TraitZ[11] != ClassZ[11]; }
  }

  /** `Traits\AnotherTestClass::zz` is matched by its own rule and by no earlier one. */
  lemma AnotherZzMatchesOnlyItsRule()
    ensures forall j :: 0 <= j < 5 ==> !CallMatches(TestRules[j], AnotherZz)
  {
    forall j | 0 <= j < 5 ensures !CallMatches(TestRules[j], AnotherZz) {
      if j == 1 {
        BadCheeseRuleMatches(AnotherZz);
        assert WithBad[0] != AnotherZz[0];
      } else {
        ExactRuleMisses(TestRules[j], AnotherZz);
      }
    }
  }

  /** The qualified name of `zz`, declared in and called on `Traits\AnotherTestClass`. */
  lemma AnotherZzName()
    ensures @"Traits\AnotherTestClass" + "::" + "zz" == AnotherZz
  {
  }

  /**
   * A method declared in the class it is called on, by no trait, is reported under that
   * class without alias (expected at tests/StaticCallsTest.php line 122).
   */
  lemma OwnMethodReported(file: string, pathMatches: PathMatcher)
    requires OutsideAllowedPaths(file, pathMatches)
    ensures MethodMessage(StaticCall(@"Traits\AnotherTestClass", @"Traits\AnotherTestClass", "zz", file),
                          TestRules, pathMatches)
      == [Message(AnotherZz, Some(AnotherZz), TestRules[5])]
    ensures NameText(AnotherZz, Some(AnotherZz)) == AnotherZz + "()"
    ensures MatchSuffix(AnotherZz, TestRules[5].call) == ""
  {
    var site := CallSite(file, Some(Node([])));
    StaticCallResolves(@"Traits\AnotherTestClass", @"Traits\AnotherTestClass", "zz", file, TestRules, pathMatches);
    AnotherZzName();
    AnotherZzMatchesOnlyItsRule();
    RuleFiresOutside(site, AnotherZz, pathMatches, 5);
    TestRuleReported(site, AnotherZz, Some(AnotherZz), pathMatches, 5);
  }

  /** The call site of the `withoutCheese` rule, in a given file, with the given constant arguments. */
  function WithoutCheeseSite(file: string, args: seq<int>): CallSite {
    CallSite(file, Some(Node(seq(|args|, i requires 0 <= i < |args| => Some(Int(args[i]))))))
  }

  /**
   * The `withoutCheese` rule as the code decides it. In an allowed path, arguments
   * (1, 2, 3) pass the in-path check; arguments (1, 2, 4) fail it but still pass the
   * anywhere check, so they are allowed there as well. Elsewhere only (1, 2, 4) is
   * allowed, and a missing third argument is never allowed.
   */
  lemma WithoutCheeseExceptions(inside: string, outside: string, pathMatches: PathMatcher)
    requires pathMatches(Patterns[0], inside)
    requires OutsideAllowedPaths(outside, pathMatches)
    ensures Allowed(WithoutCheeseSite(inside, [1, 2, 3]), TestRules[2], pathMatches)
    ensures Allowed(WithoutCheeseSite(inside, [1, 2, 4]), TestRules[2], pathMatches)
    ensures Allowed(WithoutCheeseSite(outside, [1, 2, 4]), TestRules[2], pathMatches)
    ensures !Allowed(WithoutCheeseSite(outside, [1, 2, 3]), TestRules[2], pathMatches)
    ensures !Allowed(WithoutCheeseSite(outside, [1, 2]), TestRules[2], pathMatches)
    ensures !Allowed(WithoutCheeseSite(inside, [1, 2]), TestRules[2], pathMatches)
  {
    assert InAllowedPath(inside, Patterns, pathMatches);
    assert !InAllowedPath(outside, Patterns, pathMatches);
    assert !Passes(WithoutCheeseSite(outside, [1, 2, 3]).node.value, WithoutCheeseAnywhere[2]);
    assert !Passes(WithoutCheeseSite(outside, [1, 2]).node.value, WithoutCheeseAnywhere[2]);
    assert !Passes(WithoutCheeseSite(inside, [1, 2]).node.value, WithoutCheeseAnywhere[2]);
    assert !Passes(WithoutCheeseSite(inside, [1, 2]).node.value, WithoutCheeseInAllowed[2]);
  }
}
