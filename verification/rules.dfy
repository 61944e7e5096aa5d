/**
 * Disallowed-call rules and their compilation from configuration entries
 * (`createCallsFromConfig` in src/DisallowedHelper.php).
 */
module Rules {
  import opened Wrappers

  /** A constant scalar value, as configured or as inferred for an argument. */
  datatype Literal = Int(i: int) | Bool(b: bool) | Str(s: string)

  /** One entry of an `allowParams…` array: a 1-based argument position and the value it must have. */
  datatype ParamRule = ParamRule(position: int, value: Literal)

  /** A PHP array `position => value`, in its iteration order. */
  type ParamConfig = seq<ParamRule>

  /** PHP truthiness of a string: only "" and "0" are falsy. */
  predicate Truthy(s: string)
    ensures s == "" ==> !Truthy(s)
    ensures |s| == 1 ==> (Truthy(s) <==> s[0] != '0')
    ensures |s| >= 2 ==> Truthy(s)
  {
    s != "" && s != "0"
  }

  /** A rule's call identifier; compilation never lets an empty one through. */
  type CallName = s: string | s != "" witness "*"

  /** A compiled rule (the `DisallowedCall` record). */
  datatype DisallowedCall = DisallowedCall(
    call: CallName,
    message: Option<string>,
    allowIn: seq<string>,
    allowParamsInAllowed: ParamConfig,
    allowParamsAnywhere: ParamConfig)

  /** A raw configuration entry; every key is optional. */
  datatype RawEntry = RawEntry(
    functionName: Option<string>,
    methodName: Option<string>,
    message: Option<string>,
    allowIn: Option<seq<string>>,
    allowParamsInAllowed: Option<ParamConfig>,
    allowParamsAnywhere: Option<ParamConfig>)

  datatype ConfigError = ConfigError(message: string)

  const MissingCallError := ConfigError("Either 'method' or 'function' must be set in configuration items")

  /** `$entry['function'] ?? $entry['method'] ?? null`: a present `function` key wins, whatever its value. */
  function SelectedCall(e: RawEntry): (r: Option<string>)
    ensures e.functionName.Some? ==> r == e.functionName
    ensures e.functionName.None? ==> r == e.methodName
    ensures r.None? <==> e.functionName.None? && e.methodName.None?
  {
    if e.functionName.Some? then e.functionName else e.methodName
  }

  /** Compiles one entry, failing when the selected call string is missing or falsy. */
  function CompileEntry(e: RawEntry): (r: Result<DisallowedCall, ConfigError>)
    ensures r.Failure? <==> SelectedCall(e).None? || !Truthy(SelectedCall(e).value)
    ensures r.Failure? ==> r.error == MissingCallError
  {
    var call := SelectedCall(e);
    if call.Some? && Truthy(call.value) then
      Success(DisallowedCall(
        call.value,
        e.message,
        e.allowIn.GetOr([]),
        e.allowParamsInAllowed.GetOr([]),
        e.allowParamsAnywhere.GetOr([])))
    else
      Failure(MissingCallError)
  }

  /** The rule list a configuration compiles to: one rule per entry, in entry order, or the error. */
  function CompileConfig(config: seq<RawEntry>): (r: Result<seq<DisallowedCall>, ConfigError>)
    ensures r.Success? <==> forall i :: 0 <= i < |config| ==> CompileEntry(config[i]).Success?
    ensures r.Failure? ==> r.error == MissingCallError
    ensures r.Success? ==> |r.value| == |config|
    ensures r.Success? ==> forall i :: 0 <= i < |config| ==> Success(r.value[i]) == CompileEntry(config[i])
  {
    if config == [] then Success([])
    else
      match CompileEntry(config[0])
      case Failure(err) => Failure(err)
      case Success(first) =>
        match CompileConfig(config[1..])
        case Failure(err) => Failure(err)
        case Success(rest) => Success([first] + rest)
  }

  /** The loop of `createCallsFromConfig`: appends one rule per entry and throws on a bad entry. */
  method CreateCallsFromConfig(config: seq<RawEntry>) returns (r: Result<seq<DisallowedCall>, ConfigError>)
    ensures r == CompileConfig(config)
  {
    var calls: seq<DisallowedCall> := [];
    for i := 0 to |config|
      invariant |calls| == i
      invariant forall j :: 0 <= j < i ==> CompileEntry(config[j]) == Success(calls[j])
    {
      var entry := config[i];
      var call := SelectedCall(entry);
      if call.None? || !Truthy(call.value) {
        return Failure(MissingCallError);
      }
      calls := calls + [DisallowedCall(
        call.value,
        entry.message,
        entry.allowIn.GetOr([]),
        entry.allowParamsInAllowed.GetOr([]),
        entry.allowParamsAnywhere.GetOr([]))];
    }
    var spec := CompileConfig(config);
    assert spec.Success?;
    assert spec.value == calls by {
      forall j | 0 <= j < |config| ensures spec.value[j] == calls[j] {
        assert Success(spec.value[j]) == CompileEntry(config[j]);
      }
    }
    r := Success(calls);
  }

  /**
   * What each compiled rule holds: the `function` key when present, otherwise the
   * `method` key; the message as given (absent by default); each list as configured,
   * and empty when the key is missing.
   */
  lemma CompiledRuleFields(config: seq<RawEntry>, i: int)
    requires CompileConfig(config).Success? && 0 <= i < |config|
    ensures var rule := CompileConfig(config).value[i];
      var e := config[i];
      && (e.functionName.Some? ==> rule.call == e.functionName.value)
      && (e.functionName.None? ==> e.methodName == Some(rule.call))
      && rule.message == e.message
      && rule.allowIn == e.allowIn.GetOr([])
      && rule.allowParamsInAllowed == e.allowParamsInAllowed.GetOr([])
      && rule.allowParamsAnywhere == e.allowParamsAnywhere.GetOr([])
      && (e.allowIn.None? ==> rule.allowIn == [])
      && (e.allowParamsInAllowed.None? ==> rule.allowParamsInAllowed == [])
      && (e.allowParamsAnywhere.None? ==> rule.allowParamsAnywhere == [])
  {
    assert Success(CompileConfig(config).value[i]) == CompileEntry(config[i]);
  }

  /** A falsy `function` key is an error even when a usable `method` key is present. */
  lemma FalsyFunctionKeyShadowsMethod(e: RawEntry)
    requires e.functionName == Some("") && e.methodName.Some? && Truthy(e.methodName.value)
    ensures CompileEntry(e) == Failure(MissingCallError)
  {
  }
}
