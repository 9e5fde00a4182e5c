/** The policy engine: capability, command and path gates first, then the first matching rule. */
module Policy {
  import opened Types
  import opened Config
  import Glob
  import Paths

  datatype Decision = Decision(effect: Effect, ruleId: Option<string>, risk: Option<Risk>)

  const ALLOW := Decision(Allow, None, None)

  /** What a rule's patterns are matched against, for the five operations rules can speak of. */
  function Subject(request: Request): string
    requires Plannable(request)
  {
    match request
    case Exec(_, command, _, _, _) => command
    case Read(_, path) => path
    case Write(_, path, _, _) => path
    case Upload(_, _, dst) => dst
    case Download(_, src, _) => src
  }

  function Operation(request: Request): string
    requires Plannable(request)
  {
    match request
    case Exec(_, _, _, _, _) => "exec"
    case Read(_, _) => "read"
    case Write(_, _, _, _) => "write"
    case Upload(_, _, _) => "upload"
    case Download(_, _, _) => "download"
  }

  function Patterns(rule: Rule, request: Request): seq<string> {
    if request.Exec? then rule.commands else rule.paths
  }

  ghost predicate RuleMatches(rule: Rule, request: Request)
    requires Plannable(request)
  {
    rule.operation == Operation(request) &&
    exists i :: 0 <= i < |Patterns(rule, request)| && Glob.Eager(Patterns(rule, request)[i], Subject(request))
  }

  method TestRule(rule: Rule, request: Request) returns (r: bool)
    requires Plannable(request)
    ensures r <==> RuleMatches(rule, request)
  {
    if rule.operation != Operation(request) { return false; }
    var patterns := Patterns(rule, request);
    for i := 0 to |patterns|
      invariant forall j :: 0 <= j < i ==> !Glob.Eager(patterns[j], Subject(request))
    {
      var hit := Glob.WildcardMatch(patterns[i], Subject(request));
      if hit { return true; }
    }
    r := false;
  }

  function Needed(request: Request): Capability
    requires Plannable(request)
  {
    match request
    case Exec(_, _, _, _, _) => CanExec
    case Read(_, _) => CanRead
    case Write(_, _, _, _) => CanWrite
    case Upload(_, _, _) => CanUpload
    case Download(_, _, _) => CanDownload
  }

  /** The checks that come before any rule and that no rule can override. */
  ghost predicate GatesOpen(policy: AgentPolicy, request: Request)
    requires Plannable(request)
  {
    && Needed(request) in policy.capabilities
    && (match request
        case Exec(_, command, cwd, _, _) =>
          && (policy.rules == [] || policy.commands != [] ==> command in policy.commands)
          && (cwd.Some? ==> Paths.PathAllowed(policy.readPaths, cwd.value))
        case Write(_, _, _, _) => Paths.PathAllowed(policy.writePaths, Subject(request))
        case Upload(_, _, _) => Paths.PathAllowed(policy.writePaths, Subject(request))
        case _ => Paths.PathAllowed(policy.readPaths, Subject(request)))
  }

  /** Index of the first matching rule, or the number of rules. */
  ghost function FirstMatch(rules: seq<Rule>, request: Request): (i: nat)
    requires Plannable(request)
    ensures i <= |rules|
    ensures forall j :: 0 <= j < i ==> !RuleMatches(rules[j], request)
    ensures i < |rules| ==> RuleMatches(rules[i], request)
  {
    if rules == [] then 0
    else if RuleMatches(rules[0], request) then 0
    else 1 + FirstMatch(rules[1..], request)
  }

  ghost function RuleDecision(rules: seq<Rule>, request: Request): Decision
    requires Plannable(request)
  {
    var i := FirstMatch(rules, request);
    if rules == [] then ALLOW
    else if i < |rules| then Decision(rules[i].effect, Some(rules[i].id), rules[i].risk)
    else Decision(Deny, None, None)
  }

  /** None: the request is refused outright. */
  ghost function Authorize(cfg: AppConfig, caller: Caller, request: Request): Option<Decision> {
    if !caller.EnforcesAgentPolicy() then Some(ALLOW)
    else
      match request
      case Shutdown => None
      case Administration(_) => None
      case ProfileCreate(_, _) => None
      case ProfileDelete(_, _) => None
      case SessionClose(_) => Some(ALLOW)
      case Informational(_) => Some(ALLOW)
      case TunnelOpen(profile, _, _, _) => TunnelDecision(cfg, Some(profile))
      case TunnelClose(_, profile) => TunnelDecision(cfg, profile)
      case _ =>
        var found := Find(cfg.profiles, request.profile);
        if found.None? || !GatesOpen(found.value.policy, request) then None
        else Some(RuleDecision(found.value.policy.rules, request))
  }

  function TunnelDecision(cfg: AppConfig, profile: Option<string>): Option<Decision> {
    if profile.None? then None
    else
      var found := Find(cfg.profiles, profile.value);
      if found.None? || CanTunnel !in found.value.policy.capabilities then None else Some(ALLOW)
  }

  /** `require_path` for the operation at hand. */
  method CheckGates(policy: AgentPolicy, request: Request) returns (open: bool)
    requires Plannable(request)
    ensures open <==> GatesOpen(policy, request)
  {
    if Needed(request) !in policy.capabilities { return false; }
    if request.Exec? {
      if (policy.rules == [] || policy.commands != []) && request.command !in policy.commands { return false; }
      if request.cwd.None? { return true; }
      var checked := Paths.RequirePath(policy.readPaths, request.cwd.value);
      return checked.Ok?;
    }
    var writes := request.Write? || request.Upload?;
    var checked := Paths.RequirePath(if writes then policy.writePaths else policy.readPaths, Subject(request));
    open := checked.Ok?;
  }

  method DecideByRules(rules: seq<Rule>, request: Request) returns (d: Decision)
    requires Plannable(request)
    ensures d == RuleDecision(rules, request)
  {
    if rules == [] { return ALLOW; }
    for i := 0 to |rules|
      invariant forall j :: 0 <= j < i ==> !RuleMatches(rules[j], request)
    {
      var hit := TestRule(rules[i], request);
      if hit {
        assert FirstMatch(rules, request) == i;
        return Decision(rules[i].effect, Some(rules[i].id), rules[i].risk);
      }
    }
    d := Decision(Deny, None, None);
  }

  method AuthorizeRequest(cfg: AppConfig, caller: Caller, request: Request) returns (r: Option<Decision>)
    ensures r == Authorize(cfg, caller, request) && (caller.HumanCli? ==> r == Some(ALLOW))
  {
    if !caller.EnforcesAgentPolicy() { return Some(ALLOW); }
    if Plannable(request) {
      var found := Find(cfg.profiles, request.profile);
      if found.None? { return None; }
      var open := CheckGates(found.value.policy, request);
      if !open { return None; }
      var d := DecideByRules(found.value.policy.rules, request);
      return Some(d);
    }
    match request
    case TunnelOpen(profile, _, _, _) => r := TunnelDecision(cfg, Some(profile));
    case TunnelClose(_, profile) => r := TunnelDecision(cfg, profile);
    case SessionClose(_) => r := Some(ALLOW);
    case Informational(_) => r := Some(ALLOW);
    case _ => r := None;
  }

  /** A pattern of the rule that matches in the documented sense, not merely as the loop runs. */
  ghost predicate TrulyMatches(rule: Rule, request: Request)
    requires Plannable(request)
  {
    rule.operation == Operation(request) &&
    exists i :: 0 <= i < |Patterns(rule, request)| && Glob.Matches(Patterns(rule, request)[i], Subject(request))
  }

  lemma RuleMatchSound(rule: Rule, request: Request)
    requires Plannable(request)
    ensures RuleMatches(rule, request) ==> TrulyMatches(rule, request)
    ensures Glob.NoInnerStar(Subject(request)) ==> (RuleMatches(rule, request) <==> TrulyMatches(rule, request))
  {
    var patterns := Patterns(rule, request);
    forall i | 0 <= i < |patterns|
      ensures Glob.Eager(patterns[i], Subject(request)) ==> Glob.Matches(patterns[i], Subject(request))
      ensures Glob.NoInnerStar(Subject(request)) && Glob.Matches(patterns[i], Subject(request)) ==>
              Glob.Eager(patterns[i], Subject(request))
    {
      if Glob.Eager(patterns[i], Subject(request)) {
        Glob.EagerImpliesMatches(patterns[i], Subject(request));
      } else if Glob.NoInnerStar(Subject(request)) && Glob.Matches(patterns[i], Subject(request)) {
        Glob.MatchesImpliesEager(patterns[i], Subject(request));
      }
    }
  }

  ghost predicate AdmittedBy(rules: seq<Rule>, request: Request, d: Decision, i: nat)
    requires Plannable(request)
  {
    && i < |rules| && d == Decision(rules[i].effect, Some(rules[i].id), rules[i].risk)
    && TrulyMatches(rules[i], request)
    && forall j :: 0 <= j < i ==> !RuleMatches(rules[j], request)
  }

  /**
   * Nothing an agent asks of a host passes except through its profile's gates, and, when the profile has rules, by the
   * first rule that matches: one that truly matches, with every earlier rule refusing.
   */
  lemma AdmittedOnlyByRule(cfg: AppConfig, caller: Caller, request: Request, d: Decision)
    requires !caller.HumanCli? && Plannable(request)
    requires Authorize(cfg, caller, request) == Some(d) && d.effect != Deny
    ensures Find(cfg.profiles, request.profile).Some?
    ensures var policy := Find(cfg.profiles, request.profile).value.policy;
            && GatesOpen(policy, request)
            && (policy.rules == [] ==> d == ALLOW)
            && (policy.rules != [] ==> exists i :: AdmittedBy(policy.rules, request, d, i))
  {
    var policy := Find(cfg.profiles, request.profile).value.policy;
    if policy.rules != [] {
      var i := FirstMatch(policy.rules, request);
      RuleMatchSound(policy.rules[i], request);
      assert AdmittedBy(policy.rules, request, d, i);
    }
  }

  /** The rule speaks of the operation: of its kind, and of its command or its remote path. */
  ghost predicate SpeaksOf(rule: Rule, request: Request) {
    match request
    case Exec(_, command, _, _, _) =>
      rule.operation == "exec" && exists p :: p in rule.commands && Glob.Matches(p, command)
    case Read(_, path) => rule.operation == "read" && exists p :: p in rule.paths && Glob.Matches(p, path)
    case Write(_, path, _, _) => rule.operation == "write" && exists p :: p in rule.paths && Glob.Matches(p, path)
    case Upload(_, _, dst) => rule.operation == "upload" && exists p :: p in rule.paths && Glob.Matches(p, dst)
    case Download(_, src, _) => rule.operation == "download" && exists p :: p in rule.paths && Glob.Matches(p, src)
    case _ => false
  }

  /** What an agent is not refused outright, operation by operation. */
  lemma AgentAccess(cfg: AppConfig, caller: Caller, request: Request)
    requires !caller.HumanCli?
    ensures var verdict := Authorize(cfg, caller, request);
            match request
            case Exec(profile, command, cwd, _, _) =>
              verdict.Some? <==>
                Find(cfg.profiles, profile).Some?
                && var p := Find(cfg.profiles, profile).value.policy;
                   && CanExec in p.capabilities && (p.rules == [] || p.commands != [] ==> command in p.commands)
                   && (cwd.Some? ==> Paths.PathAllowed(p.readPaths, cwd.value))
            case Read(profile, path) =>
              verdict.Some? <==>
                Find(cfg.profiles, profile).Some?
                && var p := Find(cfg.profiles, profile).value.policy;
                   CanRead in p.capabilities && Paths.PathAllowed(p.readPaths, path)
            case Write(profile, path, _, _) =>
              verdict.Some? <==>
                Find(cfg.profiles, profile).Some?
                && var p := Find(cfg.profiles, profile).value.policy;
                   CanWrite in p.capabilities && Paths.PathAllowed(p.writePaths, path)
            case Upload(profile, _, dst) =>
              verdict.Some? <==>
                Find(cfg.profiles, profile).Some?
                && var p := Find(cfg.profiles, profile).value.policy;
                   CanUpload in p.capabilities && Paths.PathAllowed(p.writePaths, dst)
            case Download(profile, src, _) =>
              verdict.Some? <==>
                Find(cfg.profiles, profile).Some?
                && var p := Find(cfg.profiles, profile).value.policy;
                   CanDownload in p.capabilities && Paths.PathAllowed(p.readPaths, src)
            case TunnelOpen(profile, _, _, _) =>
              verdict.Some? <==>
                Find(cfg.profiles, profile).Some?
                && CanTunnel in Find(cfg.profiles, profile).value.policy.capabilities
            case TunnelClose(_, owner) =>
              verdict.Some? <==>
                owner.Some? && Find(cfg.profiles, owner.value).Some?
                && CanTunnel in Find(cfg.profiles, owner.value).value.policy.capabilities
            case SessionClose(_) => verdict.Some?
            case Informational(_) => verdict.Some?
            case _ => verdict.None?
  {
    hide Paths.PathAllowed, RuleDecision;
  }

  /** And what is not denied either is what some rule says of it, if there are rules. */
  lemma AgentRules(cfg: AppConfig, caller: Caller, request: Request)
    requires !caller.HumanCli?
    ensures var verdict := Authorize(cfg, caller, request);
            Plannable(request) && verdict.Some? && verdict.value.effect != Deny ==>
              Find(cfg.profiles, request.profile).Some?
              && var rules := Find(cfg.profiles, request.profile).value.policy.rules;
                 rules != [] ==>
                   exists rule :: rule in rules && SpeaksOf(rule, request)
                                  && verdict == Some(Decision(rule.effect, Some(rule.id), rule.risk))
  {
    hide GatesOpen, RuleDecision, SpeaksOf, TrulyMatches, RuleMatches;
    var verdict := Authorize(cfg, caller, request);
    if Plannable(request) && verdict.Some? && verdict.value.effect != Deny {
      AdmittedOnlyByRule(cfg, caller, request, verdict.value);
      var rules := Find(cfg.profiles, request.profile).value.policy.rules;
      if rules != [] {
        var i: nat :| AdmittedBy(rules, request, verdict.value, i);
        TrulySpeaks(rules[i], request);
      }
    }
  }

  lemma TrulySpeaks(rule: Rule, request: Request)
    requires Plannable(request) && TrulyMatches(rule, request)
    ensures SpeaksOf(rule, request)
  {
    hide Glob.Matches;
    var i :| 0 <= i < |Patterns(rule, request)| && Glob.Matches(Patterns(rule, request)[i], Subject(request));
    assert Patterns(rule, request)[i] in Patterns(rule, request);
  }

  /** A deny rule that truly matches stands ahead of every other rule that does. */
  ghost predicate DeniesFirst(rules: seq<Rule>, request: Request, i: nat)
    requires Plannable(request)
  {
    && i < |rules| && rules[i].effect == Deny && TrulyMatches(rules[i], request)
    && forall j :: 0 <= j < i ==> rules[j].effect == Deny || !TrulyMatches(rules[j], request)
  }

  ghost predicate Refuses(cfg: AppConfig, caller: Caller, request: Request) {
    var verdict := Authorize(cfg, caller, request);
    verdict.None? || verdict.value.effect == Deny
  }

  /** On subjects without an inner `*` byte, such a rule is final, exactly as documented. */
  lemma DenyIsAbsolute(cfg: AppConfig, caller: Caller, request: Request, i: nat)
    requires !caller.HumanCli? && Plannable(request) && Find(cfg.profiles, request.profile).Some?
    requires DeniesFirst(Find(cfg.profiles, request.profile).value.policy.rules, request, i)
    requires Glob.NoInnerStar(Subject(request))
    ensures Refuses(cfg, caller, request)
  {
    hide GatesOpen, RuleMatches, TrulyMatches, FirstMatch;
    var rules := Find(cfg.profiles, request.profile).value.policy.rules;
    RuleMatchSound(rules[i], request);
    RuleMatchSound(rules[FirstMatch(rules, request)], request);
  }

  function RuleFor(request: Request, id: string, pattern: string, effect: Effect): Rule
    requires Plannable(request)
  {
    Rule(id, Operation(request), if request.Exec? then [pattern] else [], if request.Exec? then [] else [pattern],
      effect, None)
  }

  /** On every other subject it is not: two sound rules of which the engine passes over the first. */
  lemma DenyPassedOver(request: Request) returns (rules: seq<Rule>)
    requires Plannable(request) && !Glob.NoInnerStar(Subject(request))
    ensures |rules| == 2 && (forall i :: 0 <= i < 2 ==> RuleOk(rules[i])) && DistinctIds(rules)
    ensures DeniesFirst(rules, request, 0)
    ensures RuleDecision(rules, request) == Decision(Allow, Some(rules[1].id), None)
  {
    var subject := Subject(request);
    var passedOver := Glob.Departure(subject);
    Glob.ItselfEager(subject);
    rules := [RuleFor(request, "deny", passedOver, Deny), RuleFor(request, "allow", subject, Allow)];
    assert Patterns(rules[0], request)[0] == passedOver && Patterns(rules[1], request)[0] == subject;
    assert "deny"[0] != "allow"[0];
    assert FirstMatch(rules, request) == 1;
  }

  /** The rules that decide a caller's operation on a host: those of its profile, for an agent. */
  ghost predicate Governs(cfg: AppConfig, caller: Caller, request: Request, rules: seq<Rule>)
    requires Plannable(request)
  {
    && !caller.HumanCli? && Find(cfg.profiles, request.profile).Some?
    && Find(cfg.profiles, request.profile).value.policy.rules == rules
  }

  /** So a leading deny rule binds every agent under every configuration exactly when no `*` byte is inside. */
  lemma DenyBindsExactly(request: Request)
    requires Plannable(request)
    ensures (forall cfg, caller, rules, i | Governs(cfg, caller, request, rules) && DeniesFirst(rules, request, i) ::
               Refuses(cfg, caller, request)) <==> Glob.NoInnerStar(Subject(request))
  {
    hide Refuses, DeniesFirst;
    if Glob.NoInnerStar(Subject(request)) {
      forall cfg, caller, rules, i | Governs(cfg, caller, request, rules) && DeniesFirst(rules, request, i)
        ensures Refuses(cfg, caller, request)
      {
        DenyIsAbsolute(cfg, caller, request, i);
      }
    } else {
      var rules := DenyPassedOver(request);
      var policy := AgentPolicy({Needed(request)}, [], [], [], [], rules);
      var host := Endpoint("host", "user", 22, None, true);
      var profile := Profile(request.profile, None, host, [], None, false, "", 0, policy);
      var none := Permit(false, false);
      var cfg :=
        AppConfig([profile], 0, true, false, true, true, 0, true, GrantConfig(0, 0, none, none, none, none));
      assert Find(cfg.profiles, request.profile) == Some(profile);
      Admits(cfg, Mcp, request, rules);
      assert Governs(cfg, Mcp, request, rules) && DeniesFirst(rules, request, 0);
    }
  }

  lemma Admits(cfg: AppConfig, caller: Caller, request: Request, rules: seq<Rule>)
    requires Plannable(request) && Governs(cfg, caller, request, rules)
    requires GatesOpen(Find(cfg.profiles, request.profile).value.policy, request)
             && RuleDecision(rules, request).effect.Allow?
    ensures !Refuses(cfg, caller, request)
  {
    hide GatesOpen, RuleDecision;
  }
}
