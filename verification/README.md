# Disallowed calls: the rule-matching core

This project models the core of a PHPStan extension that reports calls to
functions and methods the user has forbidden. The configuration lists
*disallowed calls*. Each one names a function or method, possibly ending in a
`*` wildcard, and carries a message. It can also carry exceptions:

- file patterns where the call is allowed (`allowIn`);
- literal argument values that allow the call inside those paths (`allowParamsInAllowed`);
- literal argument values that allow it anywhere (`allowParamsAnywhere`).

All of this lives in one class, `DisallowedHelper`. The model covers:

- compiling the configuration into rules (`createCallsFromConfig`);
- matching a call name against a rule, exactly or by prefix (`callMatches`);
- the path and argument exceptions (`isAllowed`, `hasAllowedParams`);
- the first-match-wins error message (`getDisallowedMessage`);
- finding where a called method is declared (`getDisallowedMethodMessage`, `getFullyQualified`). A trait of the declaring class that declares the method is tried before the declaring class, and the message names the class the method was called on as an alias.

Modules, in dependency order:

- `Wrappers` (`wrappers.dfy`) — `Option` (PHP's nullable values and `??`) and `Result` (a thrown configuration error).
- `Rules` (`rules.dfy`) — the raw configuration entry, the compiled `DisallowedCall`, and compilation.
- `Matching` (`matching.dfy`) — `trim($s, '*')`, name matching, the parameter check and the allow decision.
- `Messages` (`messages.dfy`) — message text and the first-match scan over the rules.
- `Origin` (`origin.dfy`) — qualified names and the walk over traits and the declaring class.
- `Scenarios` (`scenarios.dfy`) — the rule set of `tests/StaticCallsTest.php` and the diagnostics that test expects, stated as lemmas.

The source's loops are methods with `while`/`for` loops and invariants:

- `CreateCallsFromConfig`
- `HasAllowedParams`
- `IsAllowed`
- `GetDisallowedMessage`
- `GetDisallowedMethodMessage`

Each is proved equal to a specification function: `CompileConfig`, `ParamsAllow`, `Allowed`, `DisallowedMessage` and `MethodMessage` respectively. The properties of the checks are proved as lemmas about those functions.

PHP semantics that the model writes out:

- `??` skips only a missing or null value. A present but falsy `function` key therefore still wins over `method`.
- `!$call` rejects `""` and `"0"` (`Truthy`).
- `!==` is strict comparison, so an argument counts only when its constant type is int, bool or string and its value equals the configured literal (`Passes`).
- `strpos(...) === 0` is a prefix test (`<=` on sequences).

Three behaviours of the code that are easy to miss:

- **Fallback to `allowParamsAnywhere`.** A call in an allowed path whose arguments fail `allowParamsInAllowed` still falls back to the `allowParamsAnywhere` check (src/DisallowedHelper.php:43-49). So arguments `(1, 2, 4)` to the `withoutCheese` rule are allowed inside an allowed path as well (`Scenarios.WithoutCheeseExceptions`).
- **One error message.** The configuration error is one constant message; it does not name the entry (`Rules.MissingCallError`).
- **A present `function` key wins.** A present `function` key wins even when it is falsy, and an entry that sets both keys is not rejected (`Rules.FalsyFunctionKeyShadowsMethod`).

## Model

| member | source | states |
|---|---|---|
| Rules.CompileEntry | src/DisallowedHelper.php:92-102 | an entry fails exactly when the selected call string (`function`, else `method`) is missing or PHP-falsy, and the failure carries the constant configuration error |
| Rules.CompileConfig | src/DisallowedHelper.php:88-105 | the configuration compiles exactly when every entry compiles; the rule list has one rule per entry, in entry order, each the compilation of its entry; a failure is the configuration error |
| Rules.CreateCallsFromConfig | src/DisallowedHelper.php:88-105 | the loop that appends rules and throws on a bad entry returns exactly `CompileConfig` of the configuration |
| Rules.Truthy | src/DisallowedHelper.php:93 | PHP string truthiness: the empty string is falsy, a one-character string is falsy exactly when it is `0`, and every longer string is truthy |
| Rules.SelectedCall | src/DisallowedHelper.php:92 | `function ?? method`: a present `function` key is selected whatever its value, otherwise the `method` key; nothing is selected exactly when both are missing |
| Rules.CompiledRuleFields | src/DisallowedHelper.php:96-102 | each compiled rule takes its call from `function` when present, otherwise from `method`; it keeps the message as given; it carries `allowIn`, `allowParamsInAllowed` and `allowParamsAnywhere` as configured, each empty when missing |
| Rules.FalsyFunctionKeyShadowsMethod | src/DisallowedHelper.php:92-95 | an empty `function` key makes the entry an error even when `method` holds a usable name |
| Matching.TrimStars | src/DisallowedHelper.php:137 | `trim($s, '*')` yields an infix `s[lo..lo+|r|]` that neither starts nor ends with `*`, and every character of `s` before and after it is `*` |
| Matching.IsWildcard | src/DisallowedHelper.php:136 | a call string is a wildcard exactly when it is some string followed by `*` |
| Matching.CallMatches | src/DisallowedHelper.php:134-141 | a rule without a trailing `*` matches only its own call string; a call string that does not start with `*` matches itself |
| Matching.WildcardMatchesStrippedPrefix | src/DisallowedHelper.php:136-137 | every wildcard rule, written as leading stars, a prefix that neither starts nor ends with `*`, and one or more trailing stars, matches a name exactly when the name starts with the prefix: `foo**` matches like `foo*`, and `*foo*` matches `foobar` but not `xfoo` |
| Matching.WildcardMatchesExactlyPrefixed | src/DisallowedHelper.php:136-137 | the common case `prefix*` matches a name exactly when the name starts with `prefix`, so it matches the prefix itself |
| Matching.ArgValue | src/DisallowedHelper.php:68 | `$node->args[$param - 1] ?? null`: the argument at a 1-based position inside the argument list, and nothing for a position outside it |
| Matching.Passes | src/DisallowedHelper.php:68-74 | a configured position passes exactly when the argument exists, has a constant type, and is strictly equal to the configured literal; a missing or non-constant argument fails |
| Matching.ParamsAllow | src/DisallowedHelper.php:60-80 | with a node and a non-empty configuration, the call is allowed exactly when every configured position holds the configured literal |
| Matching.HasAllowedParams | src/DisallowedHelper.php:60-80 | the loop that accumulates the `$disallowed` flag returns exactly `ParamsAllow`: the default without a node or without configuration, otherwise the conjunction over all positions |
| Matching.ParamsAllowIgnoresOrder | src/DisallowedHelper.php:66-77 | two parameter configurations with the same entries, in any order or with repeats, give the same decision |
| Matching.InAllowedPath | src/DisallowedHelper.php:43-44 | the file is in an allowed path exactly when some configured pattern matches it; with no patterns it never is |
| Matching.Allowed | src/DisallowedHelper.php:41-50 | a path match whose in-path parameter check passes (in particular one with no in-path parameters) allows the call; outside every allowed path, or when the in-path parameters fail, the decision is the `allowParamsAnywhere` check; without a node, only the path decides; a rule without paths and without anywhere-parameters never allows |
| Matching.IsAllowed | src/DisallowedHelper.php:41-50 | the loop over allowed paths, with its early return, returns exactly `Allowed` |
| Messages.ShowsAlias | src/DisallowedHelper.php:123 | no alias without a display name or when it equals the name; none for a display name `""` or `"0"`; an alias for every other display name of two or more characters that differs from the name |
| Messages.NameText | src/DisallowedHelper.php:123 | the alias `(as …)` is shown exactly when the display name is present, truthy and differs from the name; the text always begins with `name()` |
| Messages.MatchSuffix | src/DisallowedHelper.php:125 | the `[… matches …]` note is empty exactly when the rule's call string equals the name |
| Messages.Message | src/DisallowedHelper.php:121-126 | the diagnostic begins with `Calling name()` |
| Messages.Disallowed | src/DisallowedHelper.php:119 | a rule fires only when it matches the name and no allowed path with passing in-path parameters applies; for a matching rule outside every allowed path it fires exactly when the anywhere check fails |
| Messages.DisallowedMessage | src/DisallowedHelper.php:116-131 | at most one message, and none exactly when no rule both matches the name and is not allowed at the site |
| Messages.FirstFiringRuleReported | src/DisallowedHelper.php:118-128 | when rule k is the first that matches and is not allowed, the result is that rule's message (first match wins) |
| Messages.UnconditionalRuleFires | src/DisallowedHelper.php:119 | a rule without allowed paths and without anywhere-parameters fires on every call it matches, whatever the file and arguments |
| Messages.GetDisallowedMessage | src/DisallowedHelper.php:116-131 | the loop over the rules with its early return returns exactly `DisallowedMessage` |
| Origin.FullyQualified | src/DisallowedHelper.php:187-190 | `Class::method` consists of the class name, then `::`, then the method name, and is never PHP-falsy |
| Origin.FullyQualifiedInjective | src/DisallowedHelper.php:187-190 | for one method, equal qualified names come from equal class names |
| Origin.CalledAs | src/DisallowedHelper.php:167 | an alias exists exactly when the called-on type has a class name |
| Origin.TraitResult | src/DisallowedHelper.php:170-172 | one trait yields nothing when it does not declare the method, and otherwise the result for `Trait::method`, which is empty exactly when no rule fires for it |
| Origin.TraitMessage | src/DisallowedHelper.php:169-177 | at most one message, and none exactly when no trait that declares the method yields one |
| Origin.MethodMessage | src/DisallowedHelper.php:152-184 | no message for a non-identifier name or a type without the method; when no declaring trait yields a message, the result is the declaring class's message under the called-on alias |
| Origin.FirstFiringTraitReported | src/DisallowedHelper.php:169-177 | when trait k is the first to declare the method and yield a message, its message is the traits' result |
| Origin.TraitBeatsDeclaringClass | src/DisallowedHelper.php:165-183 | that trait's message is the whole result, ahead of the declaring class |
| Origin.AliasShownIffClassesDiffer | src/DisallowedHelper.php:123 | with qualified names, the alias is shown exactly when the called-on class differs from the class or trait the method is reported under |
| Origin.GetDisallowedMethodMessage | src/DisallowedHelper.php:152-184 | the method with its early returns and the loop over traits returns exactly `MethodMessage` |
| Scenarios.TestConfigCompiles | tests/StaticCallsTest.php:17-78 | the test's six entries compile, in order, to the six rules with empty defaults |
| Scenarios.BadCheeseRuleMatches | tests/StaticCallsTest.php:28 | the rule `Fiction\Pulp\Royale::withBad*` matches exactly the names that start with `Fiction\Pulp\Royale::withBad` |
| Scenarios.WithCheeseReported | tests/StaticCallsTest.php:88-91 | outside the allowed paths, `Royale::withCheese()` is reported by the first rule |
| Scenarios.WithCheeseText | tests/StaticCallsTest.php:89 | that diagnostic has no alias and no wildcard note |
| Scenarios.WithCheeseAllowedInAllowedPath | tests/StaticCallsTest.php:126-131 | in an allowed path the same call gets no diagnostic |
| Scenarios.WithBadCheeseReported | tests/StaticCallsTest.php:97-100 | `Royale::withBadCheese()` is reported by the wildcard rule, not by the exact rule before it |
| Scenarios.WithBadCheeseText | tests/StaticCallsTest.php:98 | that diagnostic has no alias, and its note reads ` [Fiction\Pulp\Royale::withBadCheese() matches Fiction\Pulp\Royale::withBad*()]` |
| Scenarios.InheritedMethodReported | tests/StaticCallsTest.php:113-116 | `Sub::woofer()` is reported under the declaring `Inheritance\Base`, by the `woofer` rule |
| Scenarios.BaseWooferText | tests/StaticCallsTest.php:114 | that diagnostic shows the alias `(as Inheritance\Sub::woofer())` and no wildcard note |
| Scenarios.TraitMethodReported | tests/StaticCallsTest.php:117-120 | `TestClass::z()` is reported under the trait `Traits\TestTrait` that declares it |
| Scenarios.TestTraitText | tests/StaticCallsTest.php:118 | that diagnostic shows the alias `(as Traits\TestClass::z())` and no wildcard note |
| Scenarios.OwnMethodReported | tests/StaticCallsTest.php:121-124 | `AnotherTestClass::zz()` is reported under its own class, without an alias or a wildcard note |
| Scenarios.WithoutCheeseExceptions | tests/StaticCallsTest.php:36-53 | for the `withoutCheese` rule: (1, 2, 3) and (1, 2, 4) are allowed in an allowed path; outside, only (1, 2, 4) is allowed; a missing third argument is allowed nowhere |

## Left out

- Matching a file against an allowed-path pattern, `fnmatch($this->fileHelper->absolutizePath($pattern), $file)`, is a parameter `pathMatches` of type `PathMatcher`. Glob matching and path absolutisation belong to the host. The `DisallowedHelper` object, whose only state is that file helper set once in the constructor, is therefore not modelled as a class.
- PHPStan's type inference for arguments is abstracted. Each argument is an `Option<Literal>`: a constant int, bool or string, or `None` when the type is not a constant scalar. Float and null constants are `None` too: a configured value is an int, bool or string, and `!==` never finds a float or null equal to one, so the decision is the same.
- Resolving the called-on type is abstracted. The `Name` versus `Expr` branch, `canCallMethods`, `hasMethod` and `getMethod` are folded into `CalledOnType`: the method reflection when the type can call methods and has this one, and the class name when the type has one. The reflection lists the declaring class's traits in order, each with whether it declares the method.
- The `ClassNotFoundException` that reflection may throw is not modelled. It propagates unchanged from the host.
- `DisallowedCall` is not part of this model. That class, which is not shown, normalises call strings: the test configuration writes them with a leading `\` or a trailing `()`, which the expected diagnostics do not show. The scenario configuration therefore gives the call strings already normalised.
- `Messages.Message`: a rule configured without `message` is assumed to render as the empty string. What `DisallowedCall::getMessage()` returns in that case cannot be seen; an absent (null) message printed through `%s` would give the empty string.
- The rules that call the helper (`StaticCalls`, `MethodCalls`, `FunctionCalls` and others), the PHPStan test harness and the line numbers of diagnostics are outside this core.
- `Matching.CallMatches`: `strpos` with an empty needle (a rule `*` or `**`) is modelled with PHP 8 semantics, where the empty prefix matches every name. PHP 7 returns false with a warning instead.
- `Messages.Message`: states only that the diagnostic begins with `Calling name()`. The rest of the text is stated by its parts, `Messages.NameText` and `Messages.MatchSuffix`.
- `Scenarios.WithCheeseReported`, `Scenarios.WithBadCheeseReported`, `Scenarios.InheritedMethodReported`, `Scenarios.TraitMethodReported`, `Scenarios.OwnMethodReported`: each states which rule reports the call, and with which name and alias, as `Message(name, alias, rule)`. The expected text of the test is stated through the separate text lemmas for the alias and the wildcard note, not as one literal string.
- `Scenarios.WithBadCheeseText`: states the wildcard note but not the full diagnostic as one literal.
- The four `withoutCheese` diagnostics of the test (three at lines 101-112, one at lines 127-130) depend on the argument literals in a source file that is not part of this model. `Scenarios.WithoutCheeseExceptions` states the decision for the argument lists that matter instead.
