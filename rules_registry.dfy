/**
 * The registry of validation rules by alias, and the proxies it hands out. A proxy looks its
 * alias up once, when it is created, and keeps what it found.
 *
 * Rules are of an abstract type `R`; what a rule does for a value, and its inversion, are given to
 * the proxy operations as functions.
 */
module RulesRegistries {
  import opened Wrappers
  import opened ValidationStates

  datatype RegistryError =
    | RuleHasAlreadyBeenRegistered(alias: string)
      /** `Optional.get` on an empty optional: the proxy's alias was not registered when it was made. */
    | NoSuchElement

  /** The message of `RuleHasAlreadyBeenRegisteredException`. */
  function AlreadyRegisteredMessage(alias: string): (m: string)
    ensures |m| == |alias| + 46
    ensures m[..11] == "Rule with [" && m[11..11 + |alias|] == alias
  {
    "Rule with [" + alias + "] alias has already been registered"
  }

  /** A proxy: the rule registered under its alias when it was created, if there was one. */
  datatype RegistryRuleProxy<R> = RegistryRuleProxy(rule: Option<R>)

  /** The proxy's `isAcceptableFor`: a proxy without a rule accepts nothing. */
  function ProxyIsAcceptableFor<R, V>(p: RegistryRuleProxy<R>, value: V, accepts: (R, V) -> bool): (r: bool)
    ensures p.rule.None? ==> !r
    ensures p.rule.Some? ==> r == accepts(p.rule.value, value)
  {
    match p.rule
    case None => false
    case Some(rule) => accepts(rule, value)
  }

  /** The proxy's `check`: delegated to the rule; a proxy without one fails. */
  function ProxyCheck<R, V>(p: RegistryRuleProxy<R>, value: V, check: (R, V) -> seq<ErrorMessage>): (r: Result<seq<ErrorMessage>, RegistryError>)
    ensures p.rule.None? <==> r == Failure(NoSuchElement)
    ensures p.rule.Some? ==> r == Success(check(p.rule.value, value))
  {
    match p.rule
    case None => Failure(NoSuchElement)
    case Some(rule) => Success(check(rule, value))
  }

  /** The proxy's `invert`: a proxy of the inverted rule; a proxy without a rule stays without one. */
  function ProxyInvert<R>(p: RegistryRuleProxy<R>, invert: R -> R): (r: RegistryRuleProxy<R>)
    ensures p.rule.None? <==> r.rule.None?
    ensures p.rule.Some? ==> r.rule == Some(invert(p.rule.value))
  {
    match p.rule
    case None => RegistryRuleProxy(None)
    case Some(rule) => RegistryRuleProxy(Some(invert(rule)))
  }

  /** The registry. The source keeps one static map; here it is the state of one object. */
  class RulesRegistry<R> {
    var registeredRules: map<string, R>

    constructor()
      ensures registeredRules == map[]
    {
      registeredRules := map[];
    }

    /** `registerRule`: an alias taken already is refused before anything changes. */
    method RegisterRule(alias: string, rule: R) returns (r: Result<(), RegistryError>)
      modifies this
      ensures alias in old(registeredRules) ==>
              r == Failure(RuleHasAlreadyBeenRegistered(alias)) && registeredRules == old(registeredRules)
      ensures alias !in old(registeredRules) ==>
              r == Success(()) && registeredRules == old(registeredRules)[alias := rule]
    {
      if alias in registeredRules {
        return Failure(RuleHasAlreadyBeenRegistered(alias));
      }
      registeredRules := registeredRules[alias := rule];
      r := Success(());
    }

    /** `getRule`: a proxy holding what is registered under the alias now. */
    function GetRule(alias: string): (p: RegistryRuleProxy<R>)
      reads this
      ensures p.rule.Some? <==> alias in registeredRules
      ensures alias in registeredRules ==> p.rule.value == registeredRules[alias]
    {
      RegistryRuleProxy(if alias in registeredRules then Some(registeredRules[alias]) else None)
    }

    /** `clear`: the registry becomes empty. */
    method Clear()
      modifies this
      ensures registeredRules == map[]
    {
      registeredRules := map[];
    }
  }

  // ---------------------------------------------------------------------------------------------
  // Properties

  /**
   * A proxy taken before an alias is registered keeps seeing nothing, while a proxy taken after
   * sees the rule; registering the alias a second time is refused; after `clear` the alias can be
   * registered again.
   */
  method RegistryLifecycle<R>(alias: string, first: R, second: R)
    returns (early: RegistryRuleProxy<R>, late: RegistryRuleProxy<R>,
             again: Result<(), RegistryError>, afterClear: Result<(), RegistryError>)
    ensures early.rule == None && late.rule == Some(first)
    ensures again == Failure(RuleHasAlreadyBeenRegistered(alias))
    ensures afterClear == Success(())
  {
    var registry := new RulesRegistry<R>();
    early := registry.GetRule(alias);
    var registered := registry.RegisterRule(alias, first);
    late := registry.GetRule(alias);
    again := registry.RegisterRule(alias, second);
    registry.Clear();
    afterClear := registry.RegisterRule(alias, second);
  }

  /** Different aliases are refused with different messages: the message quotes the alias. */
  lemma AlreadyRegisteredMessageInjective(a: string, b: string)
    requires a != b
    ensures AlreadyRegisteredMessage(a) != AlreadyRegisteredMessage(b)
  {
    var ma, mb := AlreadyRegisteredMessage(a), AlreadyRegisteredMessage(b);
    if |a| == |b| {
      assert ma[11..11 + |a|] == a && mb[11..11 + |b|] == b;
    }
  }

  /**
   * On any registry: a proxy taken before registering a free alias keeps failing, and one taken
   * after behaves as the registered rule; registering a taken alias changes nothing a proxy sees.
   */
  method RegisterAndLookUp<R, V>(registry: RulesRegistry<R>, alias: string, rule: R, value: V,
                                 accepts: (R, V) -> bool, check: (R, V) -> seq<ErrorMessage>)
    returns (early: RegistryRuleProxy<R>, r: Result<(), RegistryError>, late: RegistryRuleProxy<R>)
    modifies registry
    ensures alias !in old(registry.registeredRules) ==>
              r == Success(()) &&
              !ProxyIsAcceptableFor(early, value, accepts) &&
              ProxyCheck(early, value, check) == Failure(NoSuchElement) &&
              ProxyIsAcceptableFor(late, value, accepts) == accepts(rule, value) &&
              ProxyCheck(late, value, check) == Success(check(rule, value))
    ensures alias in old(registry.registeredRules) ==>
              r == Failure(RuleHasAlreadyBeenRegistered(alias)) && late == early &&
              late.rule == Some(old(registry.registeredRules)[alias])
    ensures forall other :: other != alias ==> registry.GetRule(other) == old(registry.GetRule(other))
  {
    early := registry.GetRule(alias);
    r := registry.RegisterRule(alias, rule);
    late := registry.GetRule(alias);
  }

  /** An unknown alias gives a proxy that accepts nothing and fails on `check`, inverted or not. */
  lemma UnknownAliasProxy<R, V>(p: RegistryRuleProxy<R>, value: V, accepts: (R, V) -> bool,
                                check: (R, V) -> seq<ErrorMessage>, invert: R -> R)
    requires p.rule == None
    ensures !ProxyIsAcceptableFor(p, value, accepts)
    ensures ProxyCheck(p, value, check) == Failure(NoSuchElement)
    ensures ProxyInvert(p, invert) == p
  {
  }

  /** A proxy of a known alias behaves as the registered rule, and its inversion as the inverted rule. */
  lemma KnownAliasProxy<R, V>(rule: R, value: V, accepts: (R, V) -> bool, check: (R, V) -> seq<ErrorMessage>, invert: R -> R)
    ensures ProxyIsAcceptableFor(RegistryRuleProxy(Some(rule)), value, accepts) == accepts(rule, value)
    ensures ProxyCheck(RegistryRuleProxy(Some(rule)), value, check) == Success(check(rule, value))
    ensures ProxyIsAcceptableFor(ProxyInvert(RegistryRuleProxy(Some(rule)), invert), value, accepts) ==
            accepts(invert(rule), value)
  {
  }
}
