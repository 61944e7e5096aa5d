/**
 * Resolving where a called method is declared, across the traits of its
 * declaring class and the declaring class itself (`getDisallowedMethodMessage`).
 */
module Origin {
  import opened Wrappers
  import opened Rules
  import opened Matching
  import opened Messages

  /** A trait used by the declaring class, and whether it declares the called method. */
  datatype TraitRef = TraitRef(displayName: string, declaresMethod: bool)

  /** The host's reflection of the called method: its name, declaring class and that class's traits in order. */
  datatype MethodReflection = MethodReflection(name: string, declaringClass: string, traits: seq<TraitRef>)

  /**
   * The type the method is called on: its class name when it has one, and the
   * method's reflection when the type can call methods and has this one.
   */
  datatype CalledOnType = CalledOnType(className: Option<string>, reflection: Option<MethodReflection>)

  /** A method or static call: whether its name is a plain identifier, the type it is called on, and where it is. */
  datatype MethodCallSite = MethodCallSite(nameIsIdentifier: bool, calledOn: CalledOnType, file: string, node: Node)

  /** `getFullyQualified`: `Class::method`. */
  function FullyQualified(className: string, reflection: MethodReflection): (r: string)
    ensures |r| == |className| + 2 + |reflection.name|
    ensures r[..|className|] == className && r[|className|..|className| + 2] == "::"
    ensures r[|className| + 2..] == reflection.name
    ensures Truthy(r)
  {
    className + "::" + reflection.name
  }

  /** For one method, distinct classes give distinct qualified names. */
  lemma FullyQualifiedInjective(c1: string, c2: string, reflection: MethodReflection)
    requires FullyQualified(c1, reflection) == FullyQualified(c2, reflection)
    ensures c1 == c2
  {
    assert |c1| == |c2|;
  }

  /** The alias under which the method was called: `CalledOnClass::method`, or none without a class name. */
  function CalledAs(calledOn: CalledOnType, reflection: MethodReflection): (r: Option<string>)
    ensures r.Some? <==> calledOn.className.Some?
  {
    if calledOn.className.Some? then Some(FullyQualified(calledOn.className.value, reflection)) else None
  }

  /** What one trait contributes: the result for `Trait::method` when the trait declares the method, else nothing. */
  function TraitResult(site: CallSite, t: TraitRef, reflection: MethodReflection, calledAs: Option<string>,
                       rules: seq<DisallowedCall>, pathMatches: PathMatcher): (r: seq<string>)
    ensures |r| <= 1
    ensures r == [] <==>
      (!t.declaresMethod
       || DisallowedMessage(site, FullyQualified(t.displayName, reflection), calledAs, rules, pathMatches) == [])
  {
    if t.declaresMethod
    then DisallowedMessage(site, FullyQualified(t.displayName, reflection), calledAs, rules, pathMatches)
    else []
  }

  /** The first non-empty result among the traits that declare the method, in trait order. */
  function TraitMessage(site: CallSite, traits: seq<TraitRef>, reflection: MethodReflection, calledAs: Option<string>,
                        rules: seq<DisallowedCall>, pathMatches: PathMatcher): (r: seq<string>)
    ensures |r| <= 1
    ensures r == [] <==> forall i :: 0 <= i < |traits| ==>
      TraitResult(site, traits[i], reflection, calledAs, rules, pathMatches) == []
  {
    if traits == [] then []
    else
      var here := TraitResult(site, traits[0], reflection, calledAs, rules, pathMatches);
      if here != [] then here else TraitMessage(site, traits[1..], reflection, calledAs, rules, pathMatches)
  }

  /** The call site as seen by the message composer. */
  function SiteOf(call: MethodCallSite): CallSite {
    CallSite(call.file, Some(call.node))
  }

  /**
   * What `getDisallowedMethodMessage` returns: nothing for a non-identifier name or a
   * type without the method; otherwise the first trait result, and failing that the
   * result for the declaring class, each reported as called on the called-on class.
   */
  function MethodMessage(call: MethodCallSite, rules: seq<DisallowedCall>, pathMatches: PathMatcher): (r: seq<string>)
    ensures |r| <= 1
    ensures !call.nameIsIdentifier || call.calledOn.reflection.None? ==> r == []
    ensures call.nameIsIdentifier && call.calledOn.reflection.Some? ==>
      var m := call.calledOn.reflection.value;
      var calledAs := CalledAs(call.calledOn, m);
      (forall i :: 0 <= i < |m.traits| && m.traits[i].declaresMethod ==>
        DisallowedMessage(SiteOf(call), FullyQualified(m.traits[i].displayName, m), calledAs, rules, pathMatches) == [])
      ==> r == DisallowedMessage(SiteOf(call), FullyQualified(m.declaringClass, m), calledAs, rules, pathMatches)
  {
    if !call.nameIsIdentifier || call.calledOn.reflection.None? then []
    else
      var m := call.calledOn.reflection.value;
      var calledAs := CalledAs(call.calledOn, m);
      var fromTraits := TraitMessage(SiteOf(call), m.traits, m, calledAs, rules, pathMatches);
      if fromTraits != [] then fromTraits
      else DisallowedMessage(SiteOf(call), FullyQualified(m.declaringClass, m), calledAs, rules, pathMatches)
  }

  /**
   * Traits take priority: when the k-th trait declares the method and some rule fires
   * for it, while no earlier declaring trait has one, that trait's message is reported.
   */
  lemma {:induction false} FirstFiringTraitReported(site: CallSite, traits: seq<TraitRef>, reflection: MethodReflection,
                                                    calledAs: Option<string>, rules: seq<DisallowedCall>,
                                                    pathMatches: PathMatcher, k: int)
    requires 0 <= k < |traits|
    requires TraitResult(site, traits[k], reflection, calledAs, rules, pathMatches) != []
    requires forall j :: 0 <= j < k ==> TraitResult(site, traits[j], reflection, calledAs, rules, pathMatches) == []
    ensures TraitMessage(site, traits, reflection, calledAs, rules, pathMatches)
      == TraitResult(site, traits[k], reflection, calledAs, rules, pathMatches)
  {
    if k > 0 {
      var rest := traits[1..];
      assert TraitResult(site, traits[0], reflection, calledAs, rules, pathMatches) == [];
      forall j | 0 <= j < k - 1
        ensures TraitResult(site, rest[j], reflection, calledAs, rules, pathMatches) == []
      {
        assert rest[j] == traits[j + 1];
      }
      assert rest[k - 1] == traits[k];
      FirstFiringTraitReported(site, rest, reflection, calledAs, rules, pathMatches, k - 1);
    }
  }

  /**
   * The whole resolution for a call whose method is found: the k-th declaring trait's
   * message wins over the declaring class when it is the first that fires.
   */
  lemma TraitBeatsDeclaringClass(call: MethodCallSite, rules: seq<DisallowedCall>, pathMatches: PathMatcher, k: int)
    requires call.nameIsIdentifier && call.calledOn.reflection.Some?
    requires var m := call.calledOn.reflection.value;
      && 0 <= k < |m.traits| && m.traits[k].declaresMethod
      && DisallowedMessage(SiteOf(call), FullyQualified(m.traits[k].displayName, m),
                           CalledAs(call.calledOn, m), rules, pathMatches) != []
      && forall j :: 0 <= j < k && m.traits[j].declaresMethod ==>
           DisallowedMessage(SiteOf(call), FullyQualified(m.traits[j].displayName, m),
                             CalledAs(call.calledOn, m), rules, pathMatches) == []
    ensures var m := call.calledOn.reflection.value;
      MethodMessage(call, rules, pathMatches)
        == DisallowedMessage(SiteOf(call), FullyQualified(m.traits[k].displayName, m),
                             CalledAs(call.calledOn, m), rules, pathMatches)
  {
    var m := call.calledOn.reflection.value;
    var calledAs := CalledAs(call.calledOn, m);
    forall j | 0 <= j < k ensures TraitResult(SiteOf(call), m.traits[j], m, calledAs, rules, pathMatches) == [] {
    }
    FirstFiringTraitReported(SiteOf(call), m.traits, m, calledAs, rules, pathMatches, k);
  }

  /**
   * The alias `(as C::m())` appears in a resolved message exactly when the called-on
   * class differs from the trait or class the method is reported under.
   */
  lemma AliasShownIffClassesDiffer(declaredIn: string, calledOn: string, reflection: MethodReflection)
    ensures ShowsAlias(FullyQualified(declaredIn, reflection), Some(FullyQualified(calledOn, reflection)))
      <==> declaredIn != calledOn
  {
    if FullyQualified(declaredIn, reflection) == FullyQualified(calledOn, reflection) {
      FullyQualifiedInjective(declaredIn, calledOn, reflection);
    }
  }

  /** `getDisallowedMethodMessage`: tries each declaring trait in order, then the declaring class. */
  method GetDisallowedMethodMessage(call: MethodCallSite, rules: seq<DisallowedCall>, pathMatches: PathMatcher)
    returns (r: seq<string>)
    ensures r == MethodMessage(call, rules, pathMatches)
  {
    if !call.nameIsIdentifier {
      return [];
    }
    if call.calledOn.reflection.None? {
      return [];
    }
    var reflection := call.calledOn.reflection.value;
    var site := SiteOf(call);
    var calledAs := CalledAs(call.calledOn, reflection);
    for i := 0 to |reflection.traits|
      invariant TraitMessage(site, reflection.traits[i..], reflection, calledAs, rules, pathMatches)
        == TraitMessage(site, reflection.traits, reflection, calledAs, rules, pathMatches)
    {
      assert reflection.traits[i..][1..] == reflection.traits[i + 1..];
      var t := reflection.traits[i];
      if t.declaresMethod {
        var declaredAs := FullyQualified(t.displayName, reflection);
        var message := GetDisallowedMessage(site, declaredAs, calledAs, rules, pathMatches);
        if message != [] {
          return message;
        }
      }
    }
    var declaredAs := FullyQualified(reflection.declaringClass, reflection);
    r := GetDisallowedMessage(site, declaredAs, calledAs, rules, pathMatches);
  }
}
