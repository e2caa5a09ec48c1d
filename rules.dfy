/**
 * Rule evaluation for libraries and arguments (src-tauri/src/minecraft/rule_interpreter.rs,
 * over the `Rule`, `OsRule` and `RuleAction` records of src-tauri/src/minecraft/version.rs).
 * A list of allow/disallow rules is scanned in order and the last rule that applies to the
 * running platform decides. The platform is a parameter: its OS, its architecture, and a
 * test of the OS version against a rule's version regex, which fails for an invalid regex.
 */
module RuleInterpreter {
  import opened Wrappers
  import opened Sys

  datatype RuleAction = Allow | Disallow

  datatype OsRule = OsRule(name: Option<string>, version: Option<string>, arch: Option<Architecture>)

  /** `features` maps a feature name to whether the rule wants it enabled. */
  datatype Rule = Rule(action: RuleAction, os: Option<OsRule>, features: Option<map<string, bool>>)

  /**
   * The platform the launcher runs on. `versionMatches` stands for
   * `Regex::new(regex)?.is_match(OS_VERSION)`.
   */
  datatype Env = Env(
    os: OperatingSystem,
    arch: Architecture,
    versionMatches: string -> Result<bool, LauncherError>)

  /** Every stated feature has the stated enabled-ness; the map's order does not matter. */
  predicate FeaturesMatch(wanted: map<string, bool>, features: set<string>) {
    forall name :: name in wanted ==> ((name in features) == wanted[name])
  }

  /**
   * Whether one rule applies (the body of the loop in `check_condition`). A version regex
   * is compiled even when the name or architecture already ruled the rule out, so an
   * invalid regex is an error regardless.
   */
  function RuleApplies(rule: Rule, osName: string, features: set<string>, env: Env)
    : (r: Result<bool, LauncherError>)
    ensures r.Err? <==> rule.os.Some? && rule.os.value.version.Some?
                        && env.versionMatches(rule.os.value.version.value).Err?
    ensures r.Err? ==> r.error == env.versionMatches(rule.os.value.version.value).error
    ensures r.Ok? ==> (r.value <==>
      (rule.os.None?
       || ((rule.os.value.name.None? || rule.os.value.name.value == osName)
           && (rule.os.value.arch.None? || rule.os.value.arch.value == env.arch)
           && (rule.os.value.version.None? || env.versionMatches(rule.os.value.version.value).value)))
      && (rule.features.None? || FeaturesMatch(rule.features.value, features)))
    ensures rule.os.None? && rule.features.None? ==> r == Ok(true)
    ensures rule.os.None? && rule.features.Some? ==>
      r == Ok(FeaturesMatch(rule.features.value, features))
  {
    var osOk: Result<bool, LauncherError> :=
      if rule.os.None? then Ok(true)
      else
        var req := rule.os.value;
        var nameOk := req.name.None? || req.name.value == osName;
        var archOk := req.arch.None? || req.arch.value == env.arch;
        if req.version.None? then Ok(nameOk && archOk)
        else
          var m := env.versionMatches(req.version.value);
          if m.Err? then Err(m.error) else Ok(nameOk && archOk && m.value);
    if osOk.Err? then osOk
    else
      var featuresOk := rule.features.None? || FeaturesMatch(rule.features.value, features);
      Ok(osOk.value && featuresOk)
  }

  /** The loop of `check_condition`, from a given value of `allow`: an error stops it. */
  function Scan(rules: seq<Rule>, osName: string, features: set<string>, env: Env, allow: bool)
    : Result<bool, LauncherError>
    decreases |rules|
  {
    if |rules| == 0 then Ok(allow)
    else
      var applies := RuleApplies(rules[0], osName, features, env);
      if applies.Err? then Err(applies.error)
      else
        Scan(rules[1..], osName, features, env,
             if applies.value then rules[0].action == Allow else allow)
  }

  /**
   * `check_condition`: an empty list allows without looking at the platform; otherwise
   * the OS must be known and the scan starts from "not allowed".
   */
  function Condition(rules: seq<Rule>, features: set<string>, env: Env): (r: Result<bool, LauncherError>)
    ensures |rules| == 0 ==> r == Ok(true)
    ensures |rules| > 0 && env.os == OperatingSystem.UNKNOWN ==> r == Err(Message("Invalid OS"))
  {
    if |rules| == 0 then Ok(true)
    else
      var osName := SimpleName(env.os);
      if osName.Err? then Err(osName.error)
      else Scan(rules, osName.value, features, env, false)
  }

  /** `check_condition`, as the source writes it: a loop updating `allow`. */
  method CheckCondition(rules: seq<Rule>, features: set<string>, env: Env)
    returns (r: Result<bool, LauncherError>)
    ensures r == Condition(rules, features, env)
  {
    if |rules| == 0 {
      return Ok(true);
    }
    var osName := SimpleName(env.os);
    if osName.Err? {
      return Err(osName.error);
    }
    var allow := false;
    var i := 0;
    while i < |rules|
      invariant 0 <= i <= |rules|
      invariant Scan(rules, osName.value, features, env, false)
             == Scan(rules[i..], osName.value, features, env, allow)
    {
      assert rules[i..][1..] == rules[i + 1..];
      var applies := RuleApplies(rules[i], osName.value, features, env);
      if applies.Err? {
        return Err(applies.error);
      }
      if applies.value {
        allow := rules[i].action == Allow;
      }
      i := i + 1;
    }
    return Ok(allow);
  }

  /** The rule applies, and its regex (if any) was valid. */
  predicate Applies(rule: Rule, osName: string, features: set<string>, env: Env) {
    RuleApplies(rule, osName, features, env) == Ok(true)
  }

  predicate NoRegexError(rules: seq<Rule>, osName: string, features: set<string>, env: Env) {
    forall i :: 0 <= i < |rules| ==> RuleApplies(rules[i], osName, features, env).Ok?
  }

  /** Reference definition: the action of the last applicable rule, or `init` if none applies. */
  function LastDecision(rules: seq<Rule>, osName: string, features: set<string>, env: Env, init: bool): bool
    decreases |rules|
  {
    if |rules| == 0 then init
    else if Applies(rules[|rules| - 1], osName, features, env) then rules[|rules| - 1].action == Allow
    else LastDecision(rules[..|rules| - 1], osName, features, env, init)
  }

  /** Scanning one more rule at the end is one more step after scanning the others. */
  lemma {:induction false} ScanSnoc(rules: seq<Rule>, last: Rule, osName: string, features: set<string>,
                                    env: Env, init: bool)
    requires Scan(rules, osName, features, env, init).Ok?
    ensures Scan(rules + [last], osName, features, env, init)
         == (var prev := Scan(rules, osName, features, env, init).value;
             var a := RuleApplies(last, osName, features, env);
             if a.Err? then Err(a.error) else Ok(if a.value then last.action == Allow else prev))
    decreases |rules|
  {
    if |rules| == 0 {
      assert ([] + [last])[1..] == [];
    } else {
      assert (rules + [last])[1..] == rules[1..] + [last];
      var a := RuleApplies(rules[0], osName, features, env);
      ScanSnoc(rules[1..], last, osName, features, env,
               if a.value then rules[0].action == Allow else init);
    }
  }

  /** Without regex errors the scan computes the last applicable rule's action. */
  lemma {:induction false} ScanIsLastDecision(rules: seq<Rule>, osName: string, features: set<string>,
                                              env: Env, init: bool)
    requires NoRegexError(rules, osName, features, env)
    ensures Scan(rules, osName, features, env, init) == Ok(LastDecision(rules, osName, features, env, init))
    decreases |rules|
  {
    if |rules| > 0 {
      var front := rules[..|rules| - 1];
      var last := rules[|rules| - 1];
      assert rules == front + [last];
      ScanIsLastDecision(front, osName, features, env, init);
      ScanSnoc(front, last, osName, features, env, init);
    }
  }

  /** A regex error in any rule makes the scan an error, whatever was decided before it. */
  lemma {:induction false} ScanErrorIfAnyRegexError(rules: seq<Rule>, osName: string, features: set<string>,
                                                    env: Env, init: bool)
    ensures Scan(rules, osName, features, env, init).Ok? <==> NoRegexError(rules, osName, features, env)
    decreases |rules|
  {
    if |rules| > 0 {
      var a := RuleApplies(rules[0], osName, features, env);
      if a.Ok? {
        ScanErrorIfAnyRegexError(rules[1..], osName, features, env,
                                 if a.value then rules[0].action == Allow else init);
        assert forall i :: 1 <= i < |rules| ==> rules[i] == rules[1..][i - 1];
      }
    }
  }

  /** Some Allow rule applies and no rule after it does. */
  predicate LastApplicableAllows(rules: seq<Rule>, osName: string, features: set<string>, env: Env) {
    exists j :: 0 <= j < |rules| && rules[j].action == Allow && Applies(rules[j], osName, features, env)
                && forall k :: j < k < |rules| ==> !Applies(rules[k], osName, features, env)
  }

  predicate NoneApplies(rules: seq<Rule>, osName: string, features: set<string>, env: Env) {
    forall k :: 0 <= k < |rules| ==> !Applies(rules[k], osName, features, env)
  }

  /**
   * LastDecision in closed form: the result is "allowed" iff some applicable Allow rule is
   * followed by no applicable rule, or no rule applies at all and `init` holds.
   */
  lemma {:induction false} LastDecisionIsLastApplicable(rules: seq<Rule>, osName: string,
                                                        features: set<string>, env: Env, init: bool)
    ensures LastDecision(rules, osName, features, env, init)
        <==> LastApplicableAllows(rules, osName, features, env)
             || (init && NoneApplies(rules, osName, features, env))
    decreases |rules|
  {
    if |rules| > 0 {
      var n := |rules| - 1;
      var front := rules[..n];
      var last := rules[n];
      assert rules == front + [last];
      LastDecisionIsLastApplicable(front, osName, features, env, init);
      if Applies(last, osName, features, env) {
        AppliesLast(front, last, osName, features, env);
      } else {
        SkipsLast(front, last, osName, features, env);
      }
    }
  }

  /** An applicable last rule decides alone. */
  lemma AppliesLast(front: seq<Rule>, last: Rule, osName: string, features: set<string>, env: Env)
    requires Applies(last, osName, features, env)
    ensures LastApplicableAllows(front + [last], osName, features, env) <==> last.action == Allow
    ensures !NoneApplies(front + [last], osName, features, env)
  {
    var rules := front + [last];
    var n := |front|;
    assert rules[n] == last;
    if LastApplicableAllows(rules, osName, features, env) {
      var j :| 0 <= j < |rules| && rules[j].action == Allow && Applies(rules[j], osName, features, env)
               && forall k :: j < k < |rules| ==> !Applies(rules[k], osName, features, env);
      assert j == n;
    }
  }

  /** A last rule that does not apply changes neither closed-form condition. */
  lemma SkipsLast(front: seq<Rule>, last: Rule, osName: string, features: set<string>, env: Env)
    requires !Applies(last, osName, features, env)
    ensures LastApplicableAllows(front + [last], osName, features, env)
        <==> LastApplicableAllows(front, osName, features, env)
    ensures NoneApplies(front + [last], osName, features, env) <==> NoneApplies(front, osName, features, env)
  {
    var rules := front + [last];
    var n := |front|;
    assert forall k :: 0 <= k < n ==> rules[k] == front[k];
    assert rules[n] == last;
    if LastApplicableAllows(front, osName, features, env) {
      var j :| 0 <= j < n && front[j].action == Allow && Applies(front[j], osName, features, env)
               && forall k :: j < k < n ==> !Applies(front[k], osName, features, env);
      assert rules[j].action == Allow && Applies(rules[j], osName, features, env)
             && forall k :: j < k < |rules| ==> !Applies(rules[k], osName, features, env);
    }
    if LastApplicableAllows(rules, osName, features, env) {
      var j :| 0 <= j < |rules| && rules[j].action == Allow && Applies(rules[j], osName, features, env)
               && forall k :: j < k < |rules| ==> !Applies(rules[k], osName, features, env);
      assert j < n;
      assert front[j].action == Allow && Applies(front[j], osName, features, env)
             && forall k :: j < k < n ==> !Applies(front[k], osName, features, env);
    }
  }

  /**
   * The rule interpreter in full: for a non-empty list on a known OS without regex errors,
   * the result is Allow-of-the-last-applicable-rule, and "not allowed" when none applies;
   * any invalid regex makes it an error.
   */
  lemma ConditionIsLastApplicableRule(rules: seq<Rule>, features: set<string>, env: Env)
    requires |rules| > 0 && env.os != OperatingSystem.UNKNOWN
    ensures var osName := OsDisplay(env.os);
      (Condition(rules, features, env).Ok? <==> NoRegexError(rules, osName, features, env))
      && (NoRegexError(rules, osName, features, env) ==>
            (Condition(rules, features, env) == Ok(true)
             <==> exists j :: 0 <= j < |rules| && rules[j].action == Allow
                              && Applies(rules[j], osName, features, env)
                              && forall k :: j < k < |rules| ==> !Applies(rules[k], osName, features, env)))
  {
    var osName := OsDisplay(env.os);
    ScanErrorIfAnyRegexError(rules, osName, features, env, false);
    if NoRegexError(rules, osName, features, env) {
      ScanIsLastDecision(rules, osName, features, env, false);
      LastDecisionIsLastApplicable(rules, osName, features, env, false);
    }
  }

  /** A rule naming another OS, or another architecture, never applies. */
  lemma MismatchedPlatformNeverApplies(rule: Rule, osName: string, features: set<string>, env: Env)
    requires rule.os.Some?
    requires (rule.os.value.name.Some? && rule.os.value.name.value != osName)
             || (rule.os.value.arch.Some? && rule.os.value.arch.value != env.arch)
    ensures !Applies(rule, osName, features, env)
  {
  }
}
