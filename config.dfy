/**
 * config/sentinel.go: the default rule set, InitSentinel's error sequencing and
 * UpdateRule's read-modify-reload of one resource's flow rules.
 *
 * The sentinel-golang calls are oracles passed in: `initWithConfig` for
 * api.InitWithConfig and `loadRules` for flow.LoadRules (each gives the error it
 * returns, None for nil). flow.GetRulesOfResource is the order-keeping selection of
 * one resource's rules from the currently loaded rule list.
 */
module FlowConfig {
  import opened Wrappers

  datatype TokenCalculateStrategy = Direct | OtherStrategy(code: nat)
  datatype ControlBehavior = Reject | OtherBehavior(code: nat)

  /** The flow.Rule fields this code sets; Threshold is a float64 that is only copied. */
  datatype Rule = Rule(
    resource: string,
    tokenCalculateStrategy: TokenCalculateStrategy,
    controlBehavior: ControlBehavior,
    threshold: real,
    statIntervalInMs: nat)

  datatype Error = Error(message: string)

  /** The settings InitSentinel hands to api.InitWithConfig. */
  datatype SentinelConfig = SentinelConfig(appName: string, consoleLogger: bool)

  const AppName := "gin-ecommerce"
  /** Message prefix of an api.InitWithConfig failure ("initialising Sentinel failed"). */
  const InitFailedPrefix := "初始化Sentinel失败"
  /** Message prefix of a default-rule load failure ("loading flow rules failed"). */
  const LoadFailedPrefix := "加载流控规则失败"

  /** fmt.Errorf(prefix + ": %v", cause): a new error whose text ends with the cause's (no Unwrap). */
  function Prefixed(prefix: string, cause: Error): Error
  {
    Error(prefix + ": " + cause.message)
  }

  /** A prefixed error keeps its cause's text, and an init failure never reads as a load failure. */
  lemma PrefixKeepsCause(cause: Error, other: Error)
    ensures Prefixed(InitFailedPrefix, cause).message[|InitFailedPrefix| + 2..] == cause.message
    ensures Prefixed(LoadFailedPrefix, cause).message[|LoadFailedPrefix| + 2..] == cause.message
    ensures Prefixed(InitFailedPrefix, cause) != Prefixed(LoadFailedPrefix, other)
  {
    assert Prefixed(InitFailedPrefix, cause).message[0] != Prefixed(LoadFailedPrefix, other).message[0];
  }

  /** The rule set loadDefaultRules loads: one QPS rule on the order-creation route, threshold 5. */
  function DefaultRules(): (rules: seq<Rule>)
    ensures |rules| == 1
    ensures rules[0] == Rule("POST:/orders", Direct, Reject, 5.0, 1000)
  {
    [Rule("POST:/orders", Direct, Reject, 5.0, 1000)]
  }

  /** loadDefaultRules: hands DefaultRules to flow.LoadRules and returns its error. */
  method LoadDefaultRules(loadRules: seq<Rule> -> Option<Error>) returns (loaded: seq<Rule>, err: Option<Error>)
    ensures loaded == DefaultRules()
    ensures err == loadRules(DefaultRules())
  {
    loaded := DefaultRules();
    err := loadRules(loaded);
  }

  /**
   * InitSentinel: on an InitWithConfig failure no rules are loaded; otherwise the
   * default rules are, and a load failure comes back prefixed.
   */
  method InitSentinel(initWithConfig: SentinelConfig -> Option<Error>, loadRules: seq<Rule> -> Option<Error>)
    returns (conf: SentinelConfig, loaded: Option<seq<Rule>>, err: Option<Error>)
    ensures conf == SentinelConfig(AppName, true)
    ensures initWithConfig(conf).Some? ==> loaded == None && err == Some(Prefixed(InitFailedPrefix, initWithConfig(conf).value))
    ensures initWithConfig(conf).None? ==> loaded == Some(DefaultRules())
    ensures initWithConfig(conf).None? && loadRules(DefaultRules()).Some? ==>
              err == Some(Prefixed(LoadFailedPrefix, loadRules(DefaultRules()).value))
    ensures initWithConfig(conf).None? && loadRules(DefaultRules()).None? ==> err == None
  {
    conf := SentinelConfig(AppName, true);
    var initErr := initWithConfig(conf);
    if initErr.Some? {
      return conf, None, Some(Prefixed(InitFailedPrefix, initErr.value));
    }
    var rules, loadErr := LoadDefaultRules(loadRules);
    loaded := Some(rules);
    if loadErr.Some? {
      return conf, loaded, Some(Prefixed(LoadFailedPrefix, loadErr.value));
    }
    err := None;
  }

  /** flow.GetRulesOfResource: the loaded rules of one resource, in load order. */
  function RulesOfResource(store: seq<Rule>, resource: string): (rules: seq<Rule>)
    ensures |rules| <= |store|
    ensures forall r | r in rules :: r in store && r.resource == resource
    ensures forall r | r in store && r.resource == resource :: r in rules
    decreases |store|
  {
    if store == [] then []
    else (if store[0].resource == resource then [store[0]] else []) + RulesOfResource(store[1..], resource)
  }

  /** The rule UpdateRule builds. */
  function NewRule(resource: string, threshold: real): Rule
  {
    Rule(resource, Direct, Reject, threshold, 1000)
  }

  /** The existing rules with the first replaced by the new rule, or just the new rule. */
  function Upserted(existing: seq<Rule>, resource: string, threshold: real): (rules: seq<Rule>)
    ensures |rules| == if existing == [] then 1 else |existing|
    ensures rules[0].resource == resource && rules[0].threshold == threshold
    ensures rules[0].tokenCalculateStrategy == Direct && rules[0].controlBehavior == Reject
    ensures rules[0].statIntervalInMs == 1000
    ensures rules[1..] == if existing == [] then [] else existing[1..]
  {
    if |existing| > 0 then existing[0 := NewRule(resource, threshold)] else existing + [NewRule(resource, threshold)]
  }

  /** The &r of UpdateRule's loop: a pointer to a copy of one rule. */
  class RuleRef {
    var rule: Rule

    constructor (rule: Rule)
      ensures this.rule == rule
    {
      this.rule := rule;
    }
  }

  /** The conversion loop of UpdateRule: one fresh pointer per rule, to a copy of it, in order. */
  method PointersTo(rules: seq<Rule>) returns (rulesToLoad: array<RuleRef?>)
    ensures fresh(rulesToLoad) && rulesToLoad.Length == |rules|
    ensures forall j | 0 <= j < |rules| ::
              rulesToLoad[j] != null && fresh(rulesToLoad[j]) && rulesToLoad[j].rule == rules[j]
    ensures forall j, k | 0 <= j < k < |rules| :: rulesToLoad[j] != rulesToLoad[k]
  {
    rulesToLoad := new RuleRef?[|rules|];
    for i := 0 to |rules|
      invariant forall j | 0 <= j < i ::
                  rulesToLoad[j] != null && fresh(rulesToLoad[j]) && rulesToLoad[j].rule == rules[j]
      invariant forall j, k | 0 <= j < k < i :: rulesToLoad[j] != rulesToLoad[k]
    {
      var r := new RuleRef(rules[i]);
      rulesToLoad[i] := r;
    }
  }

  /**
   * UpdateRule(resource, threshold) against the loaded rules `store`: the list of
   * pointers handed to flow.LoadRules, and the error it returned.
   */
  method UpdateRule(store: seq<Rule>, resource: string, threshold: real, loadRules: seq<Rule> -> Option<Error>)
    returns (rulesToLoad: array<RuleRef?>, err: Option<Error>)
    ensures var loaded := Upserted(RulesOfResource(store, resource), resource, threshold);
      && fresh(rulesToLoad) && rulesToLoad.Length == |loaded|
      && (forall j | 0 <= j < |loaded| ::
            rulesToLoad[j] != null && fresh(rulesToLoad[j]) && rulesToLoad[j].rule == loaded[j])
      && (forall j, k | 0 <= j < k < |loaded| :: rulesToLoad[j] != rulesToLoad[k])
      && err == loadRules(loaded)
  {
    var existingRules := RulesOfResource(store, resource);
    var newRule := Rule(resource, Direct, Reject, threshold, 1000);
    if |existingRules| > 0 {
      existingRules := existingRules[0 := newRule];
    } else {
      existingRules := existingRules + [newRule];
    }
    rulesToLoad := PointersTo(existingRules);
    err := loadRules(existingRules);
  }

  /** Only this resource's rules are reloaded: no rule of another resource is in the list. */
  lemma {:induction false} UpdateLoadsOnlyThatResource(store: seq<Rule>, resource: string, threshold: real)
    ensures var loaded := Upserted(RulesOfResource(store, resource), resource, threshold);
      && (forall r | r in loaded :: r.resource == resource)
      && (forall r | r in store && r.resource != resource :: r !in loaded)
  {
    var existing := RulesOfResource(store, resource);
    var loaded := Upserted(existing, resource, threshold);
    forall r | r in loaded
      ensures r.resource == resource
    {
      var j :| 0 <= j < |loaded| && loaded[j] == r;
      if j > 0 {
        assert r == loaded[1..][j - 1] == existing[1..][j - 1];
        assert r in existing;
      }
    }
  }

  /** A resource that already has rules keeps their number, and all but the first unchanged. */
  lemma UpdateOfManagedResource(store: seq<Rule>, resource: string, threshold: real, r0: Rule)
    requires r0 in store && r0.resource == resource
    ensures var existing := RulesOfResource(store, resource);
      var loaded := Upserted(existing, resource, threshold);
      && |loaded| == |existing| > 0
      && loaded[0] == NewRule(resource, threshold)
      && forall j | 1 <= j < |loaded| :: loaded[j] == existing[j]
  {
    var existing := RulesOfResource(store, resource);
    var loaded := Upserted(existing, resource, threshold);
    assert r0 in existing;
    forall j | 1 <= j < |loaded|
      ensures loaded[j] == existing[j]
    {
      assert loaded[j] == loaded[1..][j - 1];
    }
  }

  /** A resource with no rule gets exactly the one new rule. */
  lemma UpdateOfUnmanagedResource(store: seq<Rule>, resource: string, threshold: real)
    requires forall r | r in store :: r.resource != resource
    ensures Upserted(RulesOfResource(store, resource), resource, threshold) == [NewRule(resource, threshold)]
  {
  }

  /** Upserting twice keeps only the last threshold: the later update simply wins. */
  lemma UpsertLastWins(existing: seq<Rule>, resource: string, first: real, second: real)
    ensures Upserted(Upserted(existing, resource, first), resource, second) == Upserted(existing, resource, second)
  {
  }

  /** Re-applying the default threshold to the default rule set reloads exactly that set. */
  lemma UpdateWithDefaultThresholdIsDefault()
    ensures Upserted(RulesOfResource(DefaultRules(), "POST:/orders"), "POST:/orders", 5.0) == DefaultRules()
  {
    assert RulesOfResource(DefaultRules(), "POST:/orders") == DefaultRules() by {
      assert DefaultRules()[1..] == [];
    }
  }
}
