/**
  The policy engine: rules with trailing-star globs and conditions; deny beats allow beats the
  default. Upper-casing is a parameter.
*/
module PolicyEngine {
  import opened Errors

  /** One entry of a rule's conditions, in the order they are written. */
  datatype Condition =
    | SqlContainsAny(needles: seq<string>)
    | PiiFields(fields: seq<string>)
    | Unknown(name: string)

  /** Any effect but "deny" allows. No conditions is the empty sequence. */
  datatype Rule = Rule(
    id: string, subjects: seq<string>, actions: seq<string>, resources: seq<string>, effect: string,
    conditions: seq<Condition>)

  datatype Context = Context(sql: Option<string>, columns: seq<string>)

  datatype Request = Request(subject: string, tenant: string, action: string, resource: string, context: Context)

  datatype Decision = Denied(ruleId: string) | NotAuthorized | Allowed

  predicate Globs(pattern: string, value: string) {
    || pattern == "*" || pattern == value
    || (pattern != "" && pattern[|pattern| - 1] == '*' && pattern[..|pattern| - 1] <= value)
  }

  predicate GlobAny(patterns: seq<string>, value: string) {
    exists i :: 0 <= i < |patterns| && Globs(patterns[i], value)
  }

  predicate Contains(s: string, sub: string) {
    exists i :: 0 <= i <= |s| && sub <= s[i..]
  }

  /** Only the first entry decides. */
  predicate ConditionsMatch(upper: string -> string, conditions: seq<Condition>, context: Context) {
    conditions == [] ||
    match conditions[0]
    case SqlContainsAny(needles) =>
      var sql := upper(if context.sql.Some? then context.sql.value else "");
      exists i :: 0 <= i < |needles| && Contains(sql, upper(needles[i]))
    case PiiFields(fields) => exists i :: 0 <= i < |fields| && fields[i] in context.columns
    case Unknown(_) => false
  }

  function FullResource(r: Request): string {
    "tenant:" + r.tenant + "/" + r.resource
  }

  predicate Applies(upper: string -> string, rule: Rule, r: Request) {
    && GlobAny(rule.subjects, r.subject) && GlobAny(rule.actions, r.action) && GlobAny(rule.resources, FullResource(r))
    && (rule.conditions == [] || ConditionsMatch(upper, rule.conditions, r.context))
  }

  predicate Denies(rule: Rule) {
    rule.effect == "deny"
  }

  /** The decision on a set of rules: a matching deny wins, then a matching allow, then the default. */
  ghost predicate Decides(upper: string -> string, rules: set<Rule>, defaultDeny: bool, r: Request, d: Decision) {
    var deny := exists rule :: rule in rules && Applies(upper, rule, r) && Denies(rule);
    var allow := exists rule :: rule in rules && Applies(upper, rule, r) && !Denies(rule);
    && (d.Denied? <==> deny)
    && (d.Denied? ==> exists rule :: rule in rules && rule.id == d.ruleId && Applies(upper, rule, r) && Denies(rule))
    && (d.Allowed? <==> !deny && (allow || !defaultDeny))
  }

  function RuleSet(rules: seq<Rule>): set<Rule> {
    set rule | rule in rules
  }

  /** Rule i is the first that applies and denies. */
  ghost predicate FirstDeny(upper: string -> string, rules: seq<Rule>, r: Request, i: nat) {
    && i < |rules| && Applies(upper, rules[i], r) && Denies(rules[i])
    && forall j :: 0 <= j < i ==> !(Applies(upper, rules[j], r) && Denies(rules[j]))
  }

  method Check(upper: string -> string, rules: seq<Rule>, defaultDeny: bool, r: Request) returns (d: Decision)
    ensures Decides(upper, RuleSet(rules), defaultDeny, r, d)
    ensures d.Denied? ==> exists i: nat :: FirstDeny(upper, rules, r, i) && rules[i].id == d.ruleId
  {
    var matchedAllow, matchedDeny: seq<Rule> := [], [];
    ghost var first: nat := |rules|;
    for i := 0 to |rules|
      invariant matchedAllow != [] <==> exists j :: 0 <= j < i && Applies(upper, rules[j], r) && !Denies(rules[j])
      invariant matchedDeny == [] ==>
        first == |rules| && forall j :: 0 <= j < i ==> !(Applies(upper, rules[j], r) && Denies(rules[j]))
      invariant matchedDeny != [] ==>
        && 0 <= first < i && matchedDeny[0] == rules[first] && Applies(upper, rules[first], r) && Denies(rules[first])
        && forall j :: 0 <= j < first ==> !(Applies(upper, rules[j], r) && Denies(rules[j]))
    {
      if Applies(upper, rules[i], r) {
        if Denies(rules[i]) {
          if matchedDeny == [] {
            first := i;
          }
          matchedDeny := matchedDeny + [rules[i]];
        } else {
          matchedAllow := matchedAllow + [rules[i]];
        }
      }
    }
    if matchedDeny != [] {
      assert rules[first] in rules && FirstDeny(upper, rules, r, first);
      return Denied(matchedDeny[0].id);
    }
    if matchedAllow == [] && defaultDeny {
      return NotAuthorized;
    }
    if matchedAllow != [] {
      var j :| 0 <= j < |rules| && Applies(upper, rules[j], r) && !Denies(rules[j]);
      assert rules[j] in rules;
    }
    return Allowed;
  }

  /** The outcome code depends on neither the order nor the repetition of rules. */
  lemma OrderIrrelevant(upper: string -> string, a: seq<Rule>, b: seq<Rule>, defaultDeny: bool, r: Request,
                        d: Decision, e: Decision)
    requires multiset(a) == multiset(b)
    requires Decides(upper, RuleSet(a), defaultDeny, r, d) && Decides(upper, RuleSet(b), defaultDeny, r, e)
    ensures d.Denied? == e.Denied? && d.Allowed? == e.Allowed? && d.NotAuthorized? == e.NotAuthorized?
  {
    forall rule ensures rule in RuleSet(a) <==> rule in RuleSet(b) {
      assert rule in a <==> rule in multiset(a);
      assert rule in b <==> rule in multiset(b);
    }
    assert RuleSet(a) == RuleSet(b);
  }

  // ---------------------------------------------------------------------------------
  // What a decision means
  // ---------------------------------------------------------------------------------

  /** A pattern names everything, this one value, or whatever begins with its stem. */
  ghost predicate Names(pattern: string, value: string) {
    pattern == "*" || pattern == value || exists stem :: pattern == stem + "*" && stem <= value
  }

  ghost predicate OneNames(patterns: seq<string>, value: string) {
    exists pattern :: pattern in patterns && Names(pattern, value)
  }

  /** The text occurs somewhere in the other. */
  ghost predicate Within(text: string, whole: string) {
    exists before, after :: whole == before + text + after
  }

  /** What the first condition asks for; nothing, if there is none. */
  ghost predicate Holds(upper: string -> string, conditions: seq<Condition>, context: Context) {
    conditions == [] ||
    match conditions[0]
    case SqlContainsAny(needles) =>
      exists needle :: needle in needles &&
                       Within(upper(needle), upper(if context.sql.None? then "" else context.sql.value))
    case PiiFields(fields) => exists field :: field in fields && field in context.columns
    case Unknown(_) => false
  }

  /** The rule speaks of the request: of who asks, for what, on what, and under its first condition. */
  ghost predicate Speaks(upper: string -> string, rule: Rule, r: Request) {
    && OneNames(rule.subjects, r.subject) && OneNames(rule.actions, r.action)
    && OneNames(rule.resources, "tenant:" + r.tenant + "/" + r.resource) && Holds(upper, rule.conditions, r.context)
  }

  ghost predicate SomeSpeaks(upper: string -> string, rules: seq<Rule>, r: Request, deny: bool) {
    exists rule :: rule in rules && (rule.effect == "deny" <==> deny) && Speaks(upper, rule, r)
  }

  lemma GlobNames(pattern: string, value: string)
    ensures Globs(pattern, value) <==> Names(pattern, value)
  {
    if Globs(pattern, value) && pattern != "*" && pattern != value {
      assert pattern == pattern[..|pattern| - 1] + "*";
    }
    if stem :| pattern == stem + "*" && stem <= value {
      assert pattern[..|pattern| - 1] == stem;
    }
  }

  lemma GlobsNameOne(patterns: seq<string>, value: string)
    ensures GlobAny(patterns, value) <==> OneNames(patterns, value)
  {
    forall pattern ensures Globs(pattern, value) <==> Names(pattern, value) {
      GlobNames(pattern, value);
    }
    if pattern :| pattern in patterns && Names(pattern, value) {
      var i :| 0 <= i < |patterns| && patterns[i] == pattern;
      assert Globs(patterns[i], value);
    }
  }

  lemma ContainsWithin(whole: string, text: string)
    ensures Contains(whole, text) <==> Within(text, whole)
  {
    if i :| 0 <= i <= |whole| && text <= whole[i..] {
      assert whole == whole[..i] + text + whole[i..][|text|..];
    }
    if before, after :| whole == before + text + after {
      assert whole[|before|..] == text + after;
    }
  }

  lemma ConditionsHold(upper: string -> string, conditions: seq<Condition>, context: Context)
    ensures ConditionsMatch(upper, conditions, context) <==> Holds(upper, conditions, context)
  {
    if conditions != [] && conditions[0].SqlContainsAny? {
      var sql := upper(if context.sql.None? then "" else context.sql.value);
      forall needle ensures Contains(sql, upper(needle)) <==> Within(upper(needle), sql) {
        ContainsWithin(sql, upper(needle));
      }
    }
  }

  lemma AppliesSpeaks(upper: string -> string, rule: Rule, r: Request)
    ensures Applies(upper, rule, r) <==> Speaks(upper, rule, r)
  {
    GlobsNameOne(rule.subjects, r.subject);
    GlobsNameOne(rule.actions, r.action);
    GlobsNameOne(rule.resources, FullResource(r));
    ConditionsHold(upper, rule.conditions, r.context);
  }

  /** A request is denied exactly when a denying rule speaks of it; else allowed exactly when another
      rule does, or nothing is denied by default. The rule that is named is a denying one. */
  lemma DecisionMeans(upper: string -> string, rules: seq<Rule>, defaultDeny: bool, r: Request, d: Decision)
    requires Decides(upper, RuleSet(rules), defaultDeny, r, d)
    ensures d.Denied? <==> SomeSpeaks(upper, rules, r, true)
    ensures d.Denied? ==>
              exists rule :: rule in rules && rule.id == d.ruleId && rule.effect == "deny" && Speaks(upper, rule, r)
    ensures d.Allowed? <==>
            !SomeSpeaks(upper, rules, r, true) && (!defaultDeny || SomeSpeaks(upper, rules, r, false))
    ensures d.NotAuthorized? <==>
            !SomeSpeaks(upper, rules, r, true) && defaultDeny && !SomeSpeaks(upper, rules, r, false)
  {
    forall rule ensures Applies(upper, rule, r) <==> Speaks(upper, rule, r) {
      AppliesSpeaks(upper, rule, r);
    }
    assert forall rule :: rule in RuleSet(rules) <==> rule in rules;
  }

  /** Under default deny, a single rule admits a request if and only if it is no denying one, one
      pattern each names the subject, the action and the full resource, and its first condition
      holds. */
  lemma SingleRuleAdmitsIff(upper: string -> string, rule: Rule, r: Request)
    ensures Decides(upper, RuleSet([rule]), true, r, Allowed) <==>
            && rule.effect != "deny"
            && (exists p :: p in rule.subjects && Names(p, r.subject))
            && (exists p :: p in rule.actions && Names(p, r.action))
            && (exists p :: p in rule.resources && Names(p, "tenant:" + r.tenant + "/" + r.resource))
            && Holds(upper, rule.conditions, r.context)
  {
    AppliesSpeaks(upper, rule, r);
    assert rule in RuleSet([rule]) && forall other :: other in RuleSet([rule]) ==> other == rule;
  }

  // ---------------------------------------------------------------------------------
  // Tenant confinement
  // ---------------------------------------------------------------------------------

  predicate SlashFree(s: string) {
    '/' !in s
  }

  function TenantScope(tenant: string): string {
    "tenant:" + tenant + "/"
  }

  /** Every resource pattern of an allowing rule begins with the tenant's scope. */
  ghost predicate ScopedTo(rules: seq<Rule>, tenant: string) {
    forall rule, i :: rule in rules && !Denies(rule) && 0 <= i < |rule.resources| ==>
      TenantScope(tenant) <= rule.resources[i]
  }

  /** The position of the first slash, or the length. */
  function FirstSlash(s: string): nat {
    if s == [] || s[0] == '/' then 0 else 1 + FirstSlash(s[1..])
  }

  lemma {:induction false} FirstSlashAfter(name: string, rest: string)
    requires SlashFree(name)
    ensures FirstSlash(name + "/" + rest) == |name|
  {
    if name != [] {
      FirstSlashAfter(name[1..], rest);
      assert (name + "/" + rest)[1..] == name[1..] + "/" + rest;
    }
  }

  lemma ScopeNamesTenant(a: string, b: string, rest: string)
    requires SlashFree(a) && SlashFree(b) && TenantScope(a) <= TenantScope(b) + rest
    ensures a == b
  {
    var full := TenantScope(b) + rest;
    var s := full[7..];
    assert s == b + "/" + rest;
    assert TenantScope(a)[7..] == a + "/";
    assert s == a + "/" + s[|a| + 1..];
    FirstSlashAfter(a, s[|a| + 1..]);
    FirstSlashAfter(b, rest);
    assert a == s[..|a|] && b == s[..|b|];
  }

  /** A pattern that begins with a scope matches only values that begin with it. */
  lemma ScopedPattern(scope: string, pattern: string, value: string)
    requires scope != "" && scope[|scope| - 1] != '*' && scope[0] != '*' && scope <= pattern && Globs(pattern, value)
    ensures scope <= value
  {
  }

  lemma ScopedAdmitsWithin(upper: string -> string, rules: seq<Rule>, tenant: string, r: Request)
    requires ScopedTo(rules, tenant) && Decides(upper, RuleSet(rules), true, r, Allowed)
    ensures TenantScope(tenant) <= FullResource(r)
  {
    var rule :| rule in RuleSet(rules) && Applies(upper, rule, r) && !Denies(rule);
    var i :| 0 <= i < |rule.resources| && Globs(rule.resources[i], FullResource(r));
    ScopedPattern(TenantScope(tenant), rule.resources[i], FullResource(r));
  }

  /** With default deny and slash-free tenants, rules whose allows are scoped to a tenant never
      admit another one. */
  lemma TenantConfined(upper: string -> string, rules: seq<Rule>, tenant: string, r: Request, d: Decision)
    requires SlashFree(tenant) && SlashFree(r.tenant) && ScopedTo(rules, tenant)
    requires Decides(upper, RuleSet(rules), true, r, d) && d.Allowed?
    ensures r.tenant == tenant
  {
    ScopedAdmitsWithin(upper, rules, tenant, r);
    assert FullResource(r) == TenantScope(r.tenant) + r.resource;
    ScopeNamesTenant(tenant, r.tenant, r.resource);
  }

  /** The widest rule scoped to a tenant. */
  function WideRule(tenant: string): Rule {
    Rule("wide", ["*"], ["*"], [TenantScope(tenant) + "*"], "allow", [])
  }

  lemma WideRuleAdmits(upper: string -> string, tenant: string, r: Request)
    requires TenantScope(tenant) <= FullResource(r)
    ensures ScopedTo([WideRule(tenant)], tenant)
    ensures Decides(upper, RuleSet([WideRule(tenant)]), true, r, Allowed)
  {
    var rule := WideRule(tenant);
    var pattern := rule.resources[0];
    assert pattern[..|pattern| - 1] == TenantScope(tenant);
    assert rule.subjects[0] == "*" && rule.actions[0] == "*" && Globs(pattern, FullResource(r));
    assert Applies(upper, rule, r) && rule in RuleSet([rule]);
  }

  /** Under default deny, some rules scoped to a tenant admit a request if and only if the full
      resource of the request begins with the tenant's scope, whichever tenant asks. */
  lemma ScopeAdmitsIff(upper: string -> string, tenant: string, r: Request)
    ensures (exists rules :: ScopedTo(rules, tenant) && Decides(upper, RuleSet(rules), true, r, Allowed))
            <==> TenantScope(tenant) <= FullResource(r)
  {
    if TenantScope(tenant) <= FullResource(r) {
      WideRuleAdmits(upper, tenant, r);
    } else {
      forall rules | ScopedTo(rules, tenant) ensures !Decides(upper, RuleSet(rules), true, r, Allowed) {
        if Decides(upper, RuleSet(rules), true, r, Allowed) {
          ScopedAdmitsWithin(upper, rules, tenant, r);
        }
      }
    }
  }

  /** A tenant whose name contains a slash is admitted by the rules of the tenant before it. */
  lemma SlashEscapes(upper: string -> string)
    ensures var rule := Rule("r", ["*"], ["*"], ["tenant:acme/*"], "allow", []);
            var r := Request("s", "acme/eu", "x", "y", Context(None, []));
            ScopedTo([rule], "acme") && Decides(upper, RuleSet([rule]), true, r, Allowed)
  {
    var rule := Rule("r", ["*"], ["*"], ["tenant:acme/*"], "allow", []);
    var r := Request("s", "acme/eu", "x", "y", Context(None, []));
    assert TenantScope("acme") == "tenant:acme/" <= "tenant:acme/*";
    assert FullResource(r) == "tenant:acme/eu/y";
    assert "tenant:acme/*"[..12] == "tenant:acme/" <= FullResource(r);
    assert rule.subjects[0] == "*" && rule.actions[0] == "*" && Globs(rule.resources[0], FullResource(r));
    assert rule in RuleSet([rule]);
  }
}
